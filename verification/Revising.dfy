/** How far a draft can be revised: exactly as long as its summary has room for the feedback. */
module Revising {
  import opened Core
  import opened Text
  import opened Database
  import opened Transactions
  import opened Workflow
  import opened Invariants
  import opened Preservation
  import opened Evolution
  import opened Protocol
  import opened Finishing
  import Safety
  import P = Proposals

  /** The current version of a proposal one user is revising. */
  predicate Revisable(db: Db, actor: Actor, business: Id, proposal: Id) {
    && Prepares(db.users, actor) && proposal in db.proposals && db.proposals[proposal].org == actor.org
    && (business == "" || business == db.proposals[proposal].business)
    && CurrentKey(db, proposal) in db.versions && Current(db, proposal).status == P.Draft
  }

  function CurrentKey(db: Db, proposal: Id): VersionKey
    requires proposal in db.proposals
  {
    VersionKey(proposal, db.proposals[proposal].current)
  }

  function Current(db: Db, proposal: Id): P.Version
    requires proposal in db.proposals && CurrentKey(db, proposal) in db.versions
  {
    db.versions[CurrentKey(db, proposal)].version
  }

  /** What a piece of feedback adds to the summary. */
  function Marked(feedback: string): string {
    "\nRevision: " + TrimSpace(feedback)
  }

  /** The words of a request: ids that are ids, and between one and two thousand bytes of feedback. */
  predicate SoundRevise(args: ReviseArgs) {
    && ValidId(args.actor.org) && ValidId(args.actor.id) && ValidId(args.proposal) && !IsBlank(args.request)
    && 1 <= |TrimSpace(args.feedback)| <= 2000
  }

  /** What a caller can check before revising a proposal. */
  predicate MayRevise(db: Db, args: ReviseArgs, versionId: Id) {
    && SoundRevise(args) && Revisable(db, args.actor, args.business, args.proposal)
    && |Current(db, args.proposal).summary + Marked(args.feedback)| <= 5000
    && ValidId(versionId) && (forall k :: k in db.versions ==> db.versions[k].version.id != versionId)
    && forall i :: 0 <= i < |db.audits| ==>
         db.audits[i].id != ProposalAudit(args.proposal, ProposalRevised, args.request)
  }

  lemma SoundReviseSays(args: ReviseArgs)
    ensures SoundRevise(args) <==> ValidRevise(args)
  {
    hide TrimSpace, IsBlank, ValidId;
  }

  /** The same in the words of the transaction. */
  lemma MayReviseSays(db: Db, args: ReviseArgs, versionId: Id)
    ensures MayRevise(db, args, versionId)
       <==> && ValidRevise(args) && Revisable(db, args.actor, args.business, args.proposal)
            && |Current(db, args.proposal).summary + Marked(args.feedback)| <= MAX_SUMMARY
            && ValidId(versionId) && !VersionIdUsed(db.versions, versionId)
            && !AuditIdUsed(db.audits, ProposalAudit(args.proposal, ProposalRevised, args.request))
  {
    hide Revisable, ValidId, Marked, IsBlank;
  }

  function CurrentView(db: Db, proposal: Id): P.Proposal
    requires proposal in db.proposals && CurrentKey(db, proposal) in db.versions
  {
    var row := db.proposals[proposal];
    P.Proposal(proposal, row.business, row.goal, Current(db, proposal), row.current)
  }

  lemma RowsAreSound(start: map<Id, nat>, db: Db, proposal: Id)
    requires DbInv(start, db) && proposal in db.proposals
    ensures var k := CurrentKey(db, proposal);
            && k in db.versions && NumberedRow(db.proposals, k, db.versions[k])
            && GoodSummary(k, db.versions[k].version)
            && SoundVersion(db.versions[k]) && SoundProposal(proposal, db.proposals[proposal])
  {
  }

  /** Every proposal a tenant can see reads back whole. */
  lemma CurrentIsRead(start: map<Id, nat>, db: Db, org: Id, business: Id, proposal: Id)
    requires DbInv(start, db)
    ensures GetProposal(db, org, business, proposal).Success?
       <==> SeesProposal(db, org, proposal) && (business == "" || business == db.proposals[proposal].business)
    ensures GetProposal(db, org, business, proposal).Success? ==>
              && CurrentKey(db, proposal) in db.versions && db.versions[CurrentKey(db, proposal)].org == org
              && GetProposal(db, org, business, proposal).value == CurrentView(db, proposal)
              && Current(db, proposal).number == db.proposals[proposal].current >= 1
  {
    hide DbInv, GoodSummary;
    if proposal in db.proposals {
      RowsAreSound(start, db, proposal);
    }
  }

  function NextOf(args: ReviseArgs, view: P.Proposal, versionId: Id): P.Proposal {
    P.Proposal(view.id, view.business, view.goal,
               P.Version(versionId, view.id, view.current.number + 1, view.current.scenario, view.current.base,
                         view.current.summary + Marked(args.feedback),
                         view.current.changes + [P.HumanFeedback(view.id, TrimSpace(args.feedback))], P.Draft),
               view.version + 1)
  }

  /** Planning fails only for want of a draft, of room in the summary, or of a valid id. */
  lemma PlanSucceedsIff(args: ReviseArgs, view: P.Proposal, versionId: Id)
    requires ValidRevise(args) && view.Valid()
    requires GoodSummary(VersionKey(view.id, view.current.number), view.current)
    ensures PlanRevision(args, view, versionId).Success?
       <==> && view.current.status == P.Draft && ValidId(versionId)
            && |view.current.summary + Marked(args.feedback)| <= MAX_SUMMARY
    ensures var next := PlanRevision(args, view, versionId);
            next.Success? ==> next.value == NextOf(args, view, versionId)
  {
    var feedback, before := TrimSpace(args.feedback), view.current.summary;
    TrimSpaceTrims(args.feedback);
    TrimSpaceKeepsJoined(before, REVISION_MARK, feedback);
    assert before + REVISION_MARK + feedback == before + Marked(args.feedback);
    assert !IsBlank(before + Marked(args.feedback));
  }

  /** In a consistent store saving fails only for want of permission or of unused ids. */
  lemma SaveSucceedsIff(start: map<Id, nat>, db: Db, actor: Actor, proposal: Id, next: P.Proposal, request: string)
    requires DbInv(start, db) && SeesProposal(db, actor.org, proposal) && CurrentKey(db, proposal) in db.versions
    requires next.id == proposal && next.business == db.proposals[proposal].business && !IsBlank(request)
    requires var v := Current(db, proposal);
             v.status == P.Draft && next.current.number == v.number + 1 && next.current.base == v.base
             && next.current.scenario == v.scenario
    ensures SaveRevisionTx(db, actor, next, db.proposals[proposal].current, request).Success?
       <==> && MayOperate(db, actor) && !VersionIdUsed(db.versions, next.current.id)
            && !AuditIdUsed(db.audits, ProposalAudit(proposal, ProposalRevised, request))
  {
    var k := CurrentKey(db, proposal);
    assert NumberedRow(db.proposals, k, db.versions[k]);
    assert Grounded(db.scenarios, db.proposals, k, db.versions[k]);
    assert SoundVersion(db.versions[k]);
    Safety.FreshKey(db.proposals, db.versions, After(k));
    hide DbInv, VersionIdUsed, AuditIdUsed, IsBlank, MayOperate;
  }

  /** A revision is saved exactly when the user may operate on the visible, current draft, its summary has
      room for the feedback, and the version id and the request id are new. */
  lemma RevisionSucceedsIff(start: map<Id, nat>, db: Db, args: ReviseArgs, versionId: Id)
    requires DbInv(start, db)
    ensures ReviseNow(db, args, versionId).Success? <==> MayRevise(db, args, versionId)
    ensures !SoundRevise(args) ==> ReviseNow(db, args, versionId) == Failure(InvalidInput)
  {
    hide DbInv, GetProposal, ValidRevise, VersionIdUsed, AuditIdUsed, Marked, ValidId, MayRevise;
    MayReviseSays(db, args, versionId);
    SoundReviseSays(args);
    if ValidRevise(args) {
      CurrentIsRead(start, db, args.actor.org, args.business, args.proposal);
      var read := GetProposal(db, args.actor.org, args.business, args.proposal);
      if read.Success? {
        PlannedIff(start, db, args, versionId);
      }
    }
  }

  lemma PlannedIff(start: map<Id, nat>, db: Db, args: ReviseArgs, versionId: Id)
    requires DbInv(start, db) && ValidRevise(args)
    requires SeesProposal(db, args.actor.org, args.proposal) && CurrentKey(db, args.proposal) in db.versions
    requires Current(db, args.proposal).number == db.proposals[args.proposal].current
    ensures FinishRevision(db, args, CurrentView(db, args.proposal), versionId).Success?
       <==> && MayOperate(db, args.actor) && Current(db, args.proposal).status == P.Draft
            && |Current(db, args.proposal).summary + Marked(args.feedback)| <= MAX_SUMMARY
            && ValidId(versionId) && !VersionIdUsed(db.versions, versionId)
            && !AuditIdUsed(db.audits, ProposalAudit(args.proposal, ProposalRevised, args.request))
  {
    var k, view := CurrentKey(db, args.proposal), CurrentView(db, args.proposal);
    RowsAreSound(start, db, args.proposal);
    PlanSucceedsIff(args, view, versionId);
    if PlanRevision(args, view, versionId).Success? {
      SaveSucceedsIff(start, db, args.actor, args.proposal, NextOf(args, view, versionId), args.request);
    }
  }

  // ---- Many revisions in a row ----

  datatype Piece = Piece(feedback: string, version: Id, request: string)

  function ArgsOf(actor: Actor, proposal: Id, piece: Piece): ReviseArgs {
    ReviseArgs(actor, "", proposal, piece.feedback, piece.request)
  }

  /** The steps of client `c` that revise a proposal piece by piece. */
  function ReviseSteps(c: nat, actor: Actor, proposal: Id, pieces: seq<Piece>): seq<Step> {
    if pieces == [] then []
    else
      var last := pieces[|pieces| - 1];
      ReviseSteps(c, actor, proposal, pieces[..|pieces| - 1])
      + [ReadToRevise(c, ArgsOf(actor, proposal, last)), WriteRevision(c, last.version)]
  }

  /** What the pieces add to the summary together. */
  function TextOf(pieces: seq<Piece>): string {
    if pieces == [] then "" else TextOf(pieces[..|pieces| - 1]) + Marked(pieces[|pieces| - 1].feedback)
  }

  /** A piece whose ids the store does not know. */
  predicate NewPiece(db: Db, actor: Actor, proposal: Id, piece: Piece) {
    && ValidRevise(ArgsOf(actor, proposal, piece)) && ValidId(piece.version)
    && !VersionIdUsed(db.versions, piece.version)
    && !AuditIdUsed(db.audits, ProposalAudit(proposal, ProposalRevised, piece.request))
  }

  predicate NewPieces(db: Db, actor: Actor, proposal: Id, pieces: seq<Piece>) {
    && (forall i :: 0 <= i < |pieces| ==> NewPiece(db, actor, proposal, pieces[i]))
    && (forall i, j :: 0 <= i < j < |pieces| ==>
          pieces[i].version != pieces[j].version && pieces[i].request != pieces[j].request)
  }

  predicate FromPieces(pieces: seq<Piece>, id: Id) {
    exists i :: 0 <= i < |pieces| && pieces[i].version == id
  }

  predicate LogsPiece(proposal: Id, pieces: seq<Piece>, e: AuditEvent) {
    exists i :: 0 <= i < |pieces| && e.id == ProposalAudit(proposal, ProposalRevised, pieces[i].request)
  }

  /** What the current version keeps of what it was, and what it gains. */
  predicate Continues(a: VersionRow, b: VersionRow, pieces: seq<Piece>) {
    && b.org == a.org && b.version.status == P.Draft
    && b.version.base == a.version.base && b.version.scenario == a.version.scenario
    && b.version.summary == a.version.summary + TextOf(pieces)
    && b.version.id == if pieces == [] then a.version.id else pieces[|pieces| - 1].version
  }

  ghost predicate IdsFrom(a: map<VersionKey, VersionRow>, b: map<VersionKey, VersionRow>, pieces: seq<Piece>) {
    forall k :: k in b ==> VersionIdUsed(a, b[k].version.id) || FromPieces(pieces, b[k].version.id)
  }

  ghost predicate EventsFrom(a: seq<AuditEvent>, b: seq<AuditEvent>, proposal: Id, pieces: seq<Piece>) {
    a <= b && forall i :: |a| <= i < |b| ==> LogsPiece(proposal, pieces, b[i])
  }

  /** Only the proposal's number, the versions and the log have changed. */
  predicate Advanced(a: Db, b: Db, proposal: Id, n: nat)
    requires proposal in a.proposals
  {
    var row := a.proposals[proposal];
    b == a.(proposals := a.proposals[proposal := row.(current := row.current + n)], versions := b.versions,
            audits := b.audits)
  }

  /** The store with these pieces taken in: one version more for each. */
  ghost predicate TookIn(a: Db, b: Db, proposal: Id, pieces: seq<Piece>)
    requires proposal in a.proposals && CurrentKey(a, proposal) in a.versions
  {
    && Advanced(a, b, proposal, |pieces|)
    && CurrentKey(b, proposal) in b.versions
    && Continues(a.versions[CurrentKey(a, proposal)], b.versions[CurrentKey(b, proposal)], pieces)
    && IdsFrom(a.versions, b.versions, pieces)
    && EventsFrom(a.audits, b.audits, proposal, pieces)
  }

  lemma NothingTaken(a: Db, proposal: Id)
    requires proposal in a.proposals && CurrentKey(a, proposal) in a.versions && Current(a, proposal).status == P.Draft
    ensures TookIn(a, a, proposal, [])
  {
    assert Current(a, proposal).summary + "" == Current(a, proposal).summary;
  }

  lemma TakesOne(start: map<Id, nat>, db: Db, actor: Actor, proposal: Id, piece: Piece) returns (after: Db)
    requires DbInv(start, db) && MayRevise(db, ArgsOf(actor, proposal, piece), piece.version)
    ensures FinishRevision(db, ArgsOf(actor, proposal, piece), CurrentView(db, proposal), piece.version)
         == Success(after)
    ensures TookIn(db, after, proposal, [piece])
  {
    hide DbInv, MayRevise, ValidRevise, VersionIdUsed, AuditIdUsed, Marked, ValidId, FinishRevision, TookIn;
    var args := ArgsOf(actor, proposal, piece);
    MayReviseSays(db, args, piece.version);
    var view := CurrentView(db, proposal);
    CurrentIsRead(start, db, actor.org, "", proposal);
    PlannedIff(start, db, args, piece.version);
    after := FinishRevision(db, args, view, piece.version).value;
    TakenIn(start, db, args, piece, after);
  }

  lemma TakenIn(start: map<Id, nat>, db: Db, args: ReviseArgs, piece: Piece, after: Db)
    requires DbInv(start, db) && args.proposal in db.proposals && CurrentKey(db, args.proposal) in db.versions
    requires ValidRevise(args) && args == ArgsOf(args.actor, args.proposal, piece)
    requires Current(db, args.proposal).number == db.proposals[args.proposal].current
    requires FinishRevision(db, args, CurrentView(db, args.proposal), piece.version) == Success(after)
    ensures TookIn(db, after, args.proposal, [piece])
  {
    var k, view := CurrentKey(db, args.proposal), CurrentView(db, args.proposal);
    RowsAreSound(start, db, args.proposal);
    hide DbInv, SaveRevisionTx, PlanRevision, TookIn, GoodSummary, NumberedRow, ValidRevise, Marked;
    PlanSucceedsIff(args, view, piece.version);
    SavedTakesIn(db, args, piece, NextOf(args, view, piece.version), after);
  }

  lemma SavedTakesIn(db: Db, args: ReviseArgs, piece: Piece, next: P.Proposal, after: Db)
    requires args.proposal in db.proposals && CurrentKey(db, args.proposal) in db.versions
    requires ValidRevise(args) && args == ArgsOf(args.actor, args.proposal, piece)
    requires Current(db, args.proposal).number == db.proposals[args.proposal].current
    requires next == NextOf(args, CurrentView(db, args.proposal), piece.version)
    requires PlanRevision(args, CurrentView(db, args.proposal), piece.version) == Success(next)
    requires SaveRevisionTx(db, args.actor, next, Current(db, args.proposal).number, args.request) == Success(after)
    ensures TookIn(db, after, args.proposal, [piece])
  {
    hide ValidRevise, PlanRevision, SaveRevisionTx, TookIn, Marked, AuditIdUsed, VersionIdUsed, SoundVersion;
    var view := CurrentView(db, args.proposal);
    Safety.SaveRevisionEffect(db, args, view, next);
    var e := ProposalEvent(args.actor, view.id, ProposalRevised, args.request,
                           RevisedVersion(piece.version, view.current.number));
    SupersededTakesIn(db, args, piece, after, e);
  }

  lemma SupersededTakesIn(db: Db, args: ReviseArgs, piece: Piece, after: Db, e: AuditEvent)
    requires args.proposal in db.proposals && CurrentKey(db, args.proposal) in db.versions
    requires args == ArgsOf(args.actor, args.proposal, piece)
    requires Current(db, args.proposal).number == db.proposals[args.proposal].current
    requires db.versions[CurrentKey(db, args.proposal)].org == args.actor.org
    requires e.id == ProposalAudit(args.proposal, ProposalRevised, piece.request)
    requires var k, row := CurrentKey(db, args.proposal), db.proposals[args.proposal];
             var next := NextOf(args, CurrentView(db, args.proposal), piece.version).current;
             after == db.(versions := Superseding(db.versions, k, VersionRow(args.actor.org, next)),
                          proposals := db.proposals[args.proposal := row.(current := k.number + 1)],
                          audits := db.audits + [e])
    ensures TookIn(db, after, args.proposal, [piece])
  {
    hide TextOf;
    var k := CurrentKey(db, args.proposal);
    OnePiece(piece);
    SupersedingIds(db.versions, k, after.versions[After(k)], piece);
    assert [piece][0].request == piece.request;
  }

  lemma OnePiece(piece: Piece)
    ensures TextOf([piece]) == Marked(piece.feedback)
  {
  }

  lemma SupersedingIds(versions: map<VersionKey, VersionRow>, k: VersionKey, next: VersionRow, piece: Piece)
    requires k in versions && next.version.id == piece.version
    ensures IdsFrom(versions, Superseding(versions, k, next), [piece])
  {
    var after := Superseding(versions, k, next);
    forall l | l in after
      ensures VersionIdUsed(versions, after[l].version.id) || FromPieces([piece], after[l].version.id)
    {
      if l == After(k) {
        assert [piece][0].version == after[l].version.id;
      } else {
        assert l in versions && versions[l].version.id == after[l].version.id;
      }
    }
  }

  lemma TakesNext(start: map<Id, nat>, build: Build, s: System, c: nat, actor: Actor, proposal: Id, piece: Piece)
    returns (after: Db)
    requires DbInv(start, s.db) && c !in s.clients && MayRevise(s.db, ArgsOf(actor, proposal, piece), piece.version)
    ensures TookIn(s.db, after, proposal, [piece])
    ensures var read := Next(build, s, ReadToRevise(c, ArgsOf(actor, proposal, piece)));
            Next(build, read, WriteRevision(c, piece.version)) == System(after, s.clients)
  {
    hide DbInv, MayRevise, Revisable, ValidRevise, GetProposal, FinishRevision, TookIn, CurrentView, Next;
    var args := ArgsOf(actor, proposal, piece);
    MeansVisible(s.db, args, piece.version);
    CurrentIsRead(start, s.db, actor.org, "", proposal);
    after := TakesOne(start, s.db, actor, proposal, piece);
    RevisesAs(build, s.db, s.clients, c, args, CurrentView(s.db, proposal), piece.version, after);
  }

  lemma MeansVisible(db: Db, args: ReviseArgs, versionId: Id)
    requires MayRevise(db, args, versionId)
    ensures ValidRevise(args) && SeesProposal(db, args.actor.org, args.proposal)
    ensures args.business == "" || args.business == db.proposals[args.proposal].business
  {
  }

  lemma RevisesAs(build: Build, db: Db, clients: map<nat, Pending>, c: nat, args: ReviseArgs,
                  view: P.Proposal, versionId: Id, after: Db)
    requires c !in clients
    requires ValidRevise(args) && GetProposal(db, args.actor.org, args.business, args.proposal) == Success(view)
    requires FinishRevision(db, args, view, versionId) == Success(after)
    ensures var read := Next(build, System(db, clients), ReadToRevise(c, args));
            Next(build, read, WriteRevision(c, versionId)) == System(after, clients)
  {
    hide ValidRevise, GetProposal, FinishRevision;
    LetsGo(clients, c, ReviseRead(args, view));
  }

  lemma ThenOneMore(a: Db, b: Db, c: Db, proposal: Id, pieces: seq<Piece>, piece: Piece)
    requires proposal in a.proposals && CurrentKey(a, proposal) in a.versions
    requires TookIn(a, b, proposal, pieces) && TookIn(b, c, proposal, [piece])
    ensures TookIn(a, c, proposal, pieces + [piece])
  {
    hide IdsFrom, EventsFrom, Continues;
    ContinuesMore(a.versions[CurrentKey(a, proposal)], b.versions[CurrentKey(b, proposal)],
                  c.versions[CurrentKey(c, proposal)], pieces, piece);
    MoreIds(a.versions, b.versions, c.versions, pieces, piece);
    MoreEvents(a.audits, b.audits, c.audits, proposal, pieces, piece);
  }

  lemma TextOfMore(pieces: seq<Piece>, piece: Piece)
    ensures TextOf(pieces + [piece]) == TextOf(pieces) + Marked(piece.feedback)
  {
    hide Marked;
    assert (pieces + [piece])[..|pieces|] == pieces;
  }

  lemma ContinuesMore(a: VersionRow, b: VersionRow, c: VersionRow, pieces: seq<Piece>, piece: Piece)
    requires Continues(a, b, pieces) && Continues(b, c, [piece])
    ensures Continues(a, c, pieces + [piece])
  {
    hide TextOf, Marked;
    OnePiece(piece);
    TextOfMore(pieces, piece);
    Associates(a.version.summary, TextOf(pieces), Marked(piece.feedback));
  }

  lemma Associates(a: string, b: string, c: string)
    ensures a + b + c == a + (b + c)
  {
  }

  lemma MoreIds(a: map<VersionKey, VersionRow>, b: map<VersionKey, VersionRow>, c: map<VersionKey, VersionRow>,
                pieces: seq<Piece>, piece: Piece)
    requires IdsFrom(a, b, pieces) && IdsFrom(b, c, [piece])
    ensures IdsFrom(a, c, pieces + [piece])
  {
    forall k | k in c ensures VersionIdUsed(a, c[k].version.id) || FromPieces(pieces + [piece], c[k].version.id) {
      var id := c[k].version.id;
      if FromPieces([piece], id) {
        assert (pieces + [piece])[|pieces|] == piece;
      } else if !VersionIdUsed(a, id) {
        var i :| 0 <= i < |pieces| && pieces[i].version == id;
        assert (pieces + [piece])[i] == pieces[i];
      }
    }
  }

  lemma MoreEvents(a: seq<AuditEvent>, b: seq<AuditEvent>, c: seq<AuditEvent>, proposal: Id, pieces: seq<Piece>,
                   piece: Piece)
    requires EventsFrom(a, b, proposal, pieces) && EventsFrom(b, c, proposal, [piece])
    ensures EventsFrom(a, c, proposal, pieces + [piece])
  {
    forall i | |a| <= i < |c| ensures LogsPiece(proposal, pieces + [piece], c[i]) {
      if i < |b| {
        assert LogsPiece(proposal, pieces, b[i]);
        var j :| 0 <= j < |pieces| && b[i].id == ProposalAudit(proposal, ProposalRevised, pieces[j].request);
        assert (pieces + [piece])[j] == pieces[j];
      } else {
        assert LogsPiece(proposal, [piece], c[i]);
        assert (pieces + [piece])[|pieces|] == piece;
      }
    }
  }

  /** A piece that is new, and unlike those taken in, is still new. */
  lemma StillNew(a: Db, b: Db, actor: Actor, proposal: Id, pieces: seq<Piece>, piece: Piece)
    requires proposal in a.proposals && CurrentKey(a, proposal) in a.versions
    requires TookIn(a, b, proposal, pieces) && NewPiece(a, actor, proposal, piece)
    requires forall i :: 0 <= i < |pieces| ==> pieces[i].version != piece.version && pieces[i].request != piece.request
    ensures NewPiece(b, actor, proposal, piece)
  {
    forall i | 0 <= i < |b.audits| ensures b.audits[i].id != ProposalAudit(proposal, ProposalRevised, piece.request) {
      if i >= |a.audits| {
        assert LogsPiece(proposal, pieces, b.audits[i]);
      } else {
        assert b.audits[i] == a.audits[i];
      }
    }
  }

  lemma NothingToRevise(build: Build, s: System, c: nat, actor: Actor, proposal: Id)
    ensures Run(build, s, ReviseSteps(c, actor, proposal, [])) == s
  {
  }

  lemma StepsAppend(build: Build, s: System, c: nat, actor: Actor, proposal: Id, pieces: seq<Piece>)
    requires pieces != []
    ensures var front, last := pieces[..|pieces| - 1], pieces[|pieces| - 1];
            var t := Run(build, s, ReviseSteps(c, actor, proposal, front));
            Run(build, s, ReviseSteps(c, actor, proposal, pieces))
            == Next(build, Next(build, t, ReadToRevise(c, ArgsOf(actor, proposal, last))),
                    WriteRevision(c, last.version))
  {
    hide Next;
    var front := ReviseSteps(c, actor, proposal, pieces[..|pieces| - 1]);
    var steps := ReviseSteps(c, actor, proposal, pieces);
    TwoMore(build, s, steps, |front|);
    assert steps[..|front|] == front && steps[..|front| + 2] == steps;
  }

  /** Whatever consistent store holds a draft, and whatever other clients hold: every list of new pieces of
      feedback that fits into its summary is taken in, piece by piece, each as a version of its own. */
  lemma {:induction false} PiecesThatFitAreTaken(start: map<Id, nat>, build: Build, s: System, c: nat, actor: Actor,
                                                 proposal: Id, pieces: seq<Piece>)
    requires SysInv(start, s) && c !in s.clients
    requires Revisable(s.db, actor, "", proposal) && NewPieces(s.db, actor, proposal, pieces)
    requires |Current(s.db, proposal).summary + TextOf(pieces)| <= MAX_SUMMARY
    ensures var end := Run(build, s, ReviseSteps(c, actor, proposal, pieces));
            end.clients == s.clients && TookIn(s.db, end.db, proposal, pieces)
  {
    hide SysInv, Extends, Run, Next, NewPieces, NewPiece, TookIn, ReviseSteps, TextOf, Marked, MayOperate;
    if pieces == [] {
      NothingToRevise(build, s, c, actor, proposal);
      NothingTaken(s.db, proposal);
    } else {
      var front, last := pieces[..|pieces| - 1], pieces[|pieces| - 1];
      assert front + [last] == pieces;
      LastIsNewToo(s.db, actor, proposal, front, last);
      PiecesThatFitAreTaken(start, build, s, c, actor, proposal, front);
      RunKeepsInv(start, build, s, ReviseSteps(c, actor, proposal, front));
      LastIsTakenToo(start, build, s, Run(build, s, ReviseSteps(c, actor, proposal, front)), c, actor, proposal,
                     front, last);
      StepsAppend(build, s, c, actor, proposal, pieces);
    }
  }

  lemma LastIsTakenToo(start: map<Id, nat>, build: Build, s: System, t: System, c: nat, actor: Actor,
                       proposal: Id, pieces: seq<Piece>, piece: Piece)
    requires SysInv(start, t) && c !in s.clients && t.clients == s.clients
    requires Revisable(s.db, actor, "", proposal) && NewPieces(s.db, actor, proposal, pieces + [piece])
    requires TookIn(s.db, t.db, proposal, pieces)
    requires |Current(s.db, proposal).summary + TextOf(pieces + [piece])| <= MAX_SUMMARY
    ensures var read := Next(build, t, ReadToRevise(c, ArgsOf(actor, proposal, piece)));
            var end := Next(build, read, WriteRevision(c, piece.version));
            end.clients == s.clients && TookIn(s.db, end.db, proposal, pieces + [piece])
  {
    hide DbInv, ClientsInv, Next, NewPieces, NewPiece, TookIn, TextOf, Marked, MayRevise, MayOperate;
    LastIsNewToo(s.db, actor, proposal, pieces, piece);
    StillNew(s.db, t.db, actor, proposal, pieces, piece);
    StillFits(s.db, t.db, actor, proposal, pieces, piece);
    var after := TakesNext(start, build, t, c, actor, proposal, piece);
    ThenOneMore(s.db, t.db, after, proposal, pieces, piece);
  }

  lemma LastIsNewToo(db: Db, actor: Actor, proposal: Id, pieces: seq<Piece>, piece: Piece)
    requires proposal in db.proposals && CurrentKey(db, proposal) in db.versions
    requires NewPieces(db, actor, proposal, pieces + [piece])
    ensures NewPieces(db, actor, proposal, pieces) && NewPiece(db, actor, proposal, piece)
    ensures forall i :: 0 <= i < |pieces| ==> pieces[i].version != piece.version && pieces[i].request != piece.request
    ensures |Current(db, proposal).summary + TextOf(pieces)|
         <= |Current(db, proposal).summary + TextOf(pieces + [piece])|
    ensures Current(db, proposal).summary + TextOf(pieces + [piece])
         == Current(db, proposal).summary + TextOf(pieces) + Marked(piece.feedback)
  {
    hide NewPiece, Marked, TextOf;
    var all := pieces + [piece];
    forall i | 0 <= i < |pieces| ensures pieces[i] == all[i] {
    }
    assert all[|pieces|] == piece;
    TextOfMore(pieces, piece);
  }

  lemma StillFits(a: Db, b: Db, actor: Actor, proposal: Id, pieces: seq<Piece>, piece: Piece)
    requires Revisable(a, actor, "", proposal) && TookIn(a, b, proposal, pieces) && NewPiece(b, actor, proposal, piece)
    requires |Current(a, proposal).summary + TextOf(pieces) + Marked(piece.feedback)| <= MAX_SUMMARY
    ensures MayRevise(b, ArgsOf(actor, proposal, piece), piece.version)
  {
    hide IdsFrom, EventsFrom, ValidRevise, VersionIdUsed, AuditIdUsed, ValidId, MayRevise;
    MayReviseSays(b, ArgsOf(actor, proposal, piece), piece.version);
  }
}
