/**
 * The proof history page: a fixed list of proofs, three summary figures
 * counted from it, and either the "No proofs found" placeholder or one
 * table row per proof.
 */
module ProofPage {
  import opened Wrappers
  import opened RecordViews

  datatype Proof = Proof(id: string, crop: string, status: string, date: string, proofId: string)

  function ProofStatus(p: Proof): string
  {
    p.status
  }

  const MockProofs: seq<Proof> := [
    Proof("1", "Wheat", "verified", "2024-01-15", "ABC123"),
    Proof("2", "Rice", "pending", "2024-01-10", "DEF456"),
    Proof("3", "Corn", "verified", "2024-01-08", "GHI789"),
    Proof("4", "Soybean", "rejected", "2024-01-05", "JKL012")
  ]

  /** The three figures of the summary cards. */
  datatype Summary = Summary(verified: nat, pending: nat, total: nat)

  function SummaryOf(proofs: seq<Proof>): (s: Summary)
    ensures s.verified == multiset(Render(proofs, ProofStatus))[Verified]
    ensures s.pending == multiset(Render(proofs, ProofStatus))[Pending]
    ensures s.total == |proofs|
    ensures s.verified + s.pending <= s.total
  {
    FilterCountIsOccurrences(proofs, ProofStatus, Verified);
    FilterCountIsOccurrences(proofs, ProofStatus, Pending);
    VerifiedPlusPendingBounded(proofs, ProofStatus);
    Summary(|FilterByStatus(proofs, ProofStatus, Verified)|,
            |FilterByStatus(proofs, ProofStatus, Pending)|,
            |proofs|)
  }

  /** The fixture's statuses, in order. */
  lemma MockProofStatuses()
    ensures Render(MockProofs, ProofStatus) == [Verified, Pending, Verified, Rejected]
  {
    var ss := Render(MockProofs, ProofStatus);
    assert ss[0] == Verified && ss[1] == Pending && ss[2] == Verified && ss[3] == Rejected;
  }

  /** Any proof list with the fixture's statuses has the figures 2, 1 and 4. */
  lemma SummaryOfFixtureStatuses(proofs: seq<Proof>)
    requires Render(proofs, ProofStatus) == [Verified, Pending, Verified, Rejected]
    ensures SummaryOf(proofs) == Summary(2, 1, 4)
  {
    var m := multiset(Render(proofs, ProofStatus));
    assert m == multiset{Verified, Verified} + multiset{Pending} + multiset{Rejected};
    assert m[Verified] == 2 && m[Pending] == 1;
    var s := SummaryOf(proofs);
    assert s.verified == 2 && s.pending == 1 && s.total == 4;
  }

  /** For the fixture: two verified, one pending, four submissions in all. */
  lemma MockProofSummary()
    ensures SummaryOf(MockProofs) == Summary(2, 1, 4)
  {
    MockProofStatuses();
    SummaryOfFixtureStatuses(MockProofs);
  }

  /** What one row of the proof table shows; the date is shown as stored. */
  datatype ProofRow = ProofRow(proofId: string, crop: string, icon: string, badge: Option<Badge>, date: string)

  /** One row: the proof's own fields, with the status drawn as icon and badge. */
  function RowOf(p: Proof): (r: ProofRow)
    ensures r.proofId == p.proofId && r.crop == p.crop && r.date == p.date
    ensures r.badge.Some? <==> IsNamed(p.status)
    ensures r.icon == WhiteCircle <==> !IsNamed(p.status)
  {
    ProofRow(p.proofId, p.crop, StatusIcon(p.status), StatusBadge(p.status), p.date)
  }

  /** The proof history card: the placeholder, or a table of rows. */
  datatype History = NoProofsFound | Table(rows: seq<ProofRow>)

  function HistoryOf(proofs: seq<Proof>): (h: History)
    ensures h == NoProofsFound <==> |proofs| == 0
    ensures h.Table? ==> |h.rows| == |proofs|
    ensures h.Table? ==> forall i :: 0 <= i < |proofs| ==> h.rows[i] == RowOf(proofs[i])
  {
    if |proofs| == 0 then NoProofsFound else Table(Render(proofs, RowOf))
  }

  /** The fixture is shown as a four-row table whose first row is the verified wheat proof. */
  lemma MockProofHistory()
    ensures HistoryOf(MockProofs).Table?
    ensures |HistoryOf(MockProofs).rows| == 4
    ensures HistoryOf(MockProofs).rows[0] == ProofRow("ABC123", "Wheat", GreenCircle, Some(Badge(VerifiedTone, "Verified")), "2024-01-15")
  {
  }
}
