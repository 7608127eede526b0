/**
 * The dashboard's farmer table: a fixed list of farmer records, the verified
 * and pending figures counted from it, and one table row per farmer.
 */
module Dashboard {
  import opened Wrappers
  import opened RecordViews

  datatype FarmerData = FarmerData(id: string, name: string, crop: string, status: string, proofId: string)

  function FarmerStatus(f: FarmerData): string
  {
    f.status
  }

  const MockFarmers: seq<FarmerData> := [
    FarmerData("1", "Sunita Sharma", "Wheat", "verified", "ABC123"),
    FarmerData("2", "Ramesh Kumar", "Rice", "pending", "DEF456"),
    FarmerData("3", "Priya Patel", "Corn", "verified", "GHI789"),
    FarmerData("4", "Arjun Singh", "Cotton", "rejected", "JKL012"),
    FarmerData("5", "Meera Devi", "Soybean", "verified", "MNO345")
  ]

  /** `verifiedCount`: the number of farmers whose status is exactly "verified". */
  function VerifiedCount(farmers: seq<FarmerData>): (n: nat)
    ensures n == multiset(Render(farmers, FarmerStatus))[Verified]
  {
    FilterCountIsOccurrences(farmers, FarmerStatus, Verified);
    |FilterByStatus(farmers, FarmerStatus, Verified)|
  }

  /** `pendingCount`: the number of farmers whose status is exactly "pending". */
  function PendingCount(farmers: seq<FarmerData>): (n: nat)
    ensures n == multiset(Render(farmers, FarmerStatus))[Pending]
  {
    FilterCountIsOccurrences(farmers, FarmerStatus, Pending);
    |FilterByStatus(farmers, FarmerStatus, Pending)|
  }

  lemma CountsBounded(farmers: seq<FarmerData>)
    ensures VerifiedCount(farmers) + PendingCount(farmers) <= |farmers|
  {
    VerifiedPlusPendingBounded(farmers, FarmerStatus);
  }

  /** The fixture's statuses, in order. */
  lemma MockFarmerStatuses()
    ensures Render(MockFarmers, FarmerStatus) == [Verified, Pending, Verified, Rejected, Verified]
  {
    var ss := Render(MockFarmers, FarmerStatus);
    assert ss[0] == Verified && ss[1] == Pending && ss[2] == Verified && ss[3] == Rejected && ss[4] == Verified;
  }

  /** Any farmer list with the fixture's statuses has three verified and one pending farmer. */
  lemma CountsOfFixtureStatuses(farmers: seq<FarmerData>)
    requires Render(farmers, FarmerStatus) == [Verified, Pending, Verified, Rejected, Verified]
    ensures VerifiedCount(farmers) == 3 && PendingCount(farmers) == 1
  {
    assert multiset(Render(farmers, FarmerStatus)) == multiset{Verified, Verified, Verified} + multiset{Pending} + multiset{Rejected};
  }

  /** For the fixture: three verified and one pending out of five. */
  lemma MockFarmerCounts()
    ensures VerifiedCount(MockFarmers) == 3
    ensures PendingCount(MockFarmers) == 1
    ensures |MockFarmers| == 5
  {
    MockFarmerStatuses();
    CountsOfFixtureStatuses(MockFarmers);
  }

  /** What `farmer.name.charAt(0)` yields: the first character, or "" for an empty name. */
  function Initial(name: string): (s: string)
    ensures |s| <= 1
    ensures |s| == 1 <==> |name| > 0
    ensures |s| == 1 ==> s[0] == name[0]
  {
    if |name| == 0 then "" else [name[0]]
  }

  /** What one row of the farmer table shows. */
  datatype FarmerRow = FarmerRow(avatar: string, name: string, crop: string,
                                 icon: string, badge: Option<Badge>, proofId: string)

  /** One row: the farmer's own fields, the status icon and badge, and the avatar letter. */
  function RowOf(f: FarmerData): (r: FarmerRow)
    ensures r.name == f.name && r.crop == f.crop && r.proofId == f.proofId
    ensures |r.avatar| <= 1 && (|r.avatar| == 1 <==> |f.name| > 0)
    ensures |f.name| > 0 ==> r.avatar == [f.name[0]]
    ensures r.badge.Some? <==> IsNamed(f.status)
    ensures r.icon == WhiteCircle <==> !IsNamed(f.status)
  {
    FarmerRow(Initial(f.name), f.name, f.crop, StatusIcon(f.status), StatusBadge(f.status), f.proofId)
  }

  /** Every row of the table with a coloured icon also shows a badge, and vice versa. */
  lemma RowBadgeMatchesIcon(farmers: seq<FarmerData>, i: nat)
    requires i < |farmers|
    ensures (Render(farmers, RowOf)[i].badge.Some?) <==> IsNamed(farmers[i].status)
    ensures (Render(farmers, RowOf)[i].icon == WhiteCircle) <==> !IsNamed(farmers[i].status)
  {
  }

  /** The fixture's ids, used as row keys, are distinct; every fixture status is a named one. */
  lemma MockFarmersWellFormed()
    ensures forall i, j :: 0 <= i < j < |MockFarmers| ==> MockFarmers[i].id != MockFarmers[j].id
    ensures forall i :: 0 <= i < |MockFarmers| ==> IsNamed(MockFarmers[i].status)
  {
  }
}
