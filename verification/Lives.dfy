/** The audit log, the revision chain and the bounds on a proposal's life. */
module Lives {
  import opened Core
  import opened Database
  import opened Transactions
  import opened Workflow
  import opened Invariants
  import opened Preservation
  import opened Safety
  import P = Proposals

  /** Replaying the audit log gives a proposal's current version number, that version's id and its status. */
  lemma AuditTellsLife(start: map<Id, nat>, db: Db, p: Id)
    requires DbInv(start, db)
    ensures p in db.proposals <==> FoldAudit(db.audits, p).Some?
    ensures p in db.proposals ==>
              var k := VersionKey(p, db.proposals[p].current);
              k in db.versions
              && FoldAudit(db.audits, p)
                 == Some(Life(db.proposals[p].current, db.versions[k].version.id, db.versions[k].version.status))
  {
    var life := FoldAudit(db.audits, p);
  }

  /** Versions are numbered from 1 to the current number, and superseded exactly below it. */
  lemma NumbersHaveNoGaps(start: map<Id, nat>, db: Db, p: Id, n: nat)
    requires DbInv(start, db) && p in db.proposals
    ensures VersionKey(p, n) in db.versions <==> 1 <= n <= db.proposals[p].current
    ensures VersionKey(p, n) in db.versions ==>
              (db.versions[VersionKey(p, n)].version.status == P.Superseded <==> n < db.proposals[p].current)
  {
    if VersionKey(p, n) in db.versions {
      assert NumberedRow(db.proposals, VersionKey(p, n), db.versions[VersionKey(p, n)]);
    }
  }

  /** A request for review names a version number without comparing it with the current one;
      what it changes is the current version all the same, and nothing else but the log. */
  lemma ReviewTouchesOnlyTheCurrentVersion(start: map<Id, nat>, db: Db, actor: Actor, proposal: Id, expected: nat,
                                           request: string)
    requires DbInv(start, db) && SubmitReviewTx(db, actor, proposal, expected, request).Success?
    ensures proposal in db.proposals && expected == db.proposals[proposal].current
    ensures var k := VersionKey(proposal, expected);
            var after := SubmitReviewTx(db, actor, proposal, expected, request).value;
            && k in db.versions && db.versions[k].version.status == P.Draft
            && after == db.(versions := SetStatus(db.versions, k, P.InReview), audits := after.audits)
  {
    SubmitReviewEffect(db, actor, proposal, expected, request);
    DraftIsCurrent(db.proposals, db.versions, VersionKey(proposal, expected));
  }

  /** No proposal has more than 417 versions, nor more than 420 events in the audit log. */
  lemma LivesAreBounded(start: map<Id, nat>, db: Db, p: Id)
    requires DbInv(start, db)
    ensures p in db.proposals ==> db.proposals[p].current <= MAX_VERSIONS
    ensures EventsAbout(db.audits, p) <= MAX_EVENTS
  {
    AuditTellsLife(start, db, p);
    if p in db.proposals {
      var k := VersionKey(p, db.proposals[p].current);
      assert GoodSummary(k, db.versions[k].version);
    }
  }

  /** A proposal has at least as many events as versions. */
  lemma {:induction false} EventsCoverVersions(audits: seq<AuditEvent>, p: Id)
    ensures FoldAudit(audits, p).Some? ==> FoldAudit(audits, p).value.number <= EventsAbout(audits, p)
  {
    if audits != [] {
      EventsCoverVersions(audits[..|audits| - 1], p);
    }
  }

  /** `b` goes on from `a`: its changes are those of `a` and more, its scenario and base are the same. */
  predicate GoesOn(a: P.Version, b: P.Version) {
    a.changes < b.changes && b.scenario == a.scenario && b.base == a.base
  }

  lemma RevisionGoesOn(versions: map<VersionKey, VersionRow>, k: VersionKey)
    requires ChainInv(versions) && k in versions && After(k) in versions
    ensures GoesOn(versions[k].version, versions[After(k)].version)
  {
    assert Follows(k, After(k));
    var a, b := versions[k].version, versions[After(k)].version;
    assert Revises(a, b);
  }

  lemma GoesOnTransitive(a: P.Version, b: P.Version, c: P.Version)
    requires GoesOn(a, b) && GoesOn(b, c)
    ensures GoesOn(a, c)
  {
  }

  /** Along a proposal the scenario and the base stay, and each change list is a proper prefix of every later one. */
  lemma {:induction false} ChangesGrow(db: Db, p: Id, m: nat, n: nat)
    requires NumberingInv(db.proposals, db.versions) && ChainInv(db.versions) && p in db.proposals
    requires 1 <= m < n <= db.proposals[p].current
    ensures VersionKey(p, m) in db.versions && VersionKey(p, n) in db.versions
    ensures var a, b := db.versions[VersionKey(p, m)].version, db.versions[VersionKey(p, n)].version;
            a.changes < b.changes && b.scenario == a.scenario && b.base == a.base
  {
    hide ChainInv, NumberedRow;
    assert VersionKey(p, m) in db.versions && VersionKey(p, n - 1) in db.versions && VersionKey(p, n) in db.versions;
    RevisionGoesOn(db.versions, VersionKey(p, n - 1));
    if m < n - 1 {
      ChangesGrow(db, p, m, n - 1);
      GoesOnTransitive(db.versions[VersionKey(p, m)].version, db.versions[VersionKey(p, n - 1)].version,
                       db.versions[VersionKey(p, n)].version);
    }
  }

  /** In every version the changes are the actions of its scenario, entry by entry, followed by one piece of
      feedback for each revision so far. */
  lemma ChangesAreActionsThenFeedback(start: map<Id, nat>, db: Db, k: VersionKey)
    requires DbInv(start, db) && k in db.versions
    ensures var v := db.versions[k].version;
            && v.scenario in db.scenarios
            && Mirrors(v.changes, db.scenarios[v.scenario].scenario.actions, v.number)
  {
    assert Grounded(db.scenarios, db.proposals, k, db.versions[k]);
    assert NumberedRow(db.proposals, k, db.versions[k]);
  }

  /** The words of every piece of feedback, each under its mark, in order. */
  function RevisionText(changes: seq<P.Change>): string {
    if changes == [] then ""
    else RevisionText(changes[..|changes| - 1])
         + (if changes[|changes| - 1].HumanFeedback? then REVISION_MARK + changes[|changes| - 1].text else "")
  }

  lemma {:induction false} NoFeedbackNoText(changes: seq<P.Change>)
    requires NoFeedback(changes)
    ensures RevisionText(changes) == ""
  {
    if changes != [] {
      NoFeedbackNoText(changes[..|changes| - 1]);
    }
  }

  /** Every summary is the first summary followed by the feedback in the version's own changes. */
  lemma {:induction false} SummaryIsFirstPlusFeedback(db: Db, p: Id, n: nat)
    requires NumberingInv(db.proposals, db.versions) && ChainInv(db.versions) && p in db.proposals
    requires 1 <= n <= db.proposals[p].current
    ensures VersionKey(p, 1) in db.versions && VersionKey(p, n) in db.versions
    ensures db.versions[VersionKey(p, n)].version.summary
         == db.versions[VersionKey(p, 1)].version.summary + RevisionText(db.versions[VersionKey(p, n)].version.changes)
  {
    var k, l := VersionKey(p, n - 1), VersionKey(p, n);
    var v, first := db.versions[l].version, db.versions[VersionKey(p, 1)].version.summary;
    assert GoodSummary(l, v);
    if n == 1 {
      NoFeedbackNoText(v.changes);
    } else {
      SummaryIsFirstPlusFeedback(db, p, n - 1);
      assert Follows(k, l) && Revises(db.versions[k].version, v);
      RevisionAddsText(db.versions[k].version, v, first);
    }
  }

  lemma RevisionAddsText(u: P.Version, v: P.Version, first: string)
    requires Revises(u, v) && u.summary == first + RevisionText(u.changes)
    ensures v.summary == first + RevisionText(v.changes)
  {
    assert v.changes[..|v.changes| - 1] == u.changes;
    var piece := REVISION_MARK + v.changes[|u.changes|].text;
    assert RevisionText(v.changes) == RevisionText(u.changes) + piece;
    assert v.summary == u.summary + piece;
    assert first + RevisionText(u.changes) + piece == first + (RevisionText(u.changes) + piece);
  }
}
