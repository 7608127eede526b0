/**
 * What the two read-only views (the dashboard and the proof history) share:
 * the status-to-icon and status-to-badge mappings, counting records by exact
 * equality of their status field, and rendering one row per record.
 */
module RecordViews {
  import opened Wrappers

  const Verified: string := "verified"
  const Pending: string := "pending"
  const Rejected: string := "rejected"

  /** One of the three statuses the views know how to draw. */
  predicate IsNamed(s: string)
  {
    s == Verified || s == Pending || s == Rejected
  }

  const GreenCircle: string := "\U{1F7E2}"
  const YellowCircle: string := "\U{1F7E1}"
  const RedCircle: string := "\U{1F534}"
  const WhiteCircle: string := "\U{26AA}"

  /** `getStatusIcon`: total, with the neutral white circle for every other string. */
  function StatusIcon(status: string): (icon: string)
    ensures icon == WhiteCircle <==> !IsNamed(status)
    ensures status == Verified ==> icon == GreenCircle
    ensures status == Pending ==> icon == YellowCircle
    ensures status == Rejected ==> icon == RedCircle
  {
    if status == Verified then GreenCircle
    else if status == Pending then YellowCircle
    else if status == Rejected then RedCircle
    else WhiteCircle
  }

  /** The three named statuses are told apart by their icons. */
  lemma StatusIconInjective(a: string, b: string)
    requires IsNamed(a) && IsNamed(b)
    requires StatusIcon(a) == StatusIcon(b)
    ensures a == b
  {
  }

  /** The badge drawn beside the icon: its colour class and its text. */
  datatype Tone = VerifiedTone | PendingTone | WarningTone
  datatype Badge = Badge(tone: Tone, text: string)

  /** `getStatusBadge`: a badge for the three named statuses, null for anything else. */
  function StatusBadge(status: string): (b: Option<Badge>)
    ensures b.Some? <==> IsNamed(status)
    ensures status == Verified ==> b == Some(Badge(VerifiedTone, "Verified"))
    ensures status == Pending ==> b == Some(Badge(PendingTone, "Pending"))
    ensures status == Rejected ==> b == Some(Badge(WarningTone, "Rejected"))
  {
    match status
    case "verified" => Some(Badge(VerifiedTone, "Verified"))
    case "pending" => Some(Badge(PendingTone, "Pending"))
    case "rejected" => Some(Badge(WarningTone, "Rejected"))
    case _ => None
  }

  /** A status cell shows a badge exactly when its icon is not the neutral one. */
  lemma BadgeIffColouredIcon(status: string)
    ensures StatusBadge(status).Some? <==> StatusIcon(status) != WhiteCircle
  {
  }

  /** `records.filter(r => status(r) === s)`: the records whose status is exactly s, in order. */
  function FilterByStatus<T>(records: seq<T>, status: T -> string, s: string): (kept: seq<T>)
    ensures |kept| <= |records|
    ensures forall i :: 0 <= i < |kept| ==> status(kept[i]) == s
    ensures forall r :: r in records && status(r) == s ==> r in kept
    ensures forall r :: r in kept ==> r in records
    ensures multiset(kept) <= multiset(records)
  {
    if |records| == 0 then []
    else
    assert records == [records[0]] + records[1..];
    if status(records[0]) == s then [records[0]] + FilterByStatus(records[1..], status, s)
    else FilterByStatus(records[1..], status, s)
  }

  /** The records whose status is none of the three named ones. */
  function FilterUnnamed<T>(records: seq<T>, status: T -> string): (kept: seq<T>)
    ensures |kept| <= |records|
    ensures forall i :: 0 <= i < |kept| ==> !IsNamed(status(kept[i]))
    ensures forall r :: r in records && !IsNamed(status(r)) ==> r in kept
    ensures forall r :: r in kept ==> r in records
    ensures multiset(kept) <= multiset(records)
  {
    if |records| == 0 then []
    else
    assert records == [records[0]] + records[1..];
    if !IsNamed(status(records[0])) then [records[0]] + FilterUnnamed(records[1..], status)
    else FilterUnnamed(records[1..], status)
  }

  /** `records.map(row)`: one rendered row per record, in the records' order. */
  function Render<T, R>(records: seq<T>, row: T -> R): (rows: seq<R>)
    ensures |rows| == |records|
    ensures forall i :: 0 <= i < |records| ==> rows[i] == row(records[i])
  {
    if |records| == 0 then [] else [row(records[0])] + Render(records[1..], row)
  }

  /** A filtered count is the number of occurrences of s among the statuses. */
  lemma {:induction false} FilterCountIsOccurrences<T>(records: seq<T>, status: T -> string, s: string)
    ensures |FilterByStatus(records, status, s)| == multiset(Render(records, status))[s]
  {
    if |records| > 0 {
      FilterCountIsOccurrences(records[1..], status, s);
      assert Render(records, status) == [status(records[0])] + Render(records[1..], status);
    }
  }

  /** Every record is counted under exactly one of verified, pending, rejected or unknown. */
  lemma {:induction false} CountsPartition<T>(records: seq<T>, status: T -> string)
    ensures |FilterByStatus(records, status, Verified)| + |FilterByStatus(records, status, Pending)|
          + |FilterByStatus(records, status, Rejected)| + |FilterUnnamed(records, status)| == |records|
  {
    if |records| > 0 {
      CountsPartition(records[1..], status);
    }
  }

  /** The verified and pending figures together never exceed the number of records. */
  lemma VerifiedPlusPendingBounded<T>(records: seq<T>, status: T -> string)
    ensures |FilterByStatus(records, status, Verified)| + |FilterByStatus(records, status, Pending)| <= |records|
  {
  }
}
