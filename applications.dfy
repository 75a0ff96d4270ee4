/** The job-applications page (pro-network/src/app/profile/applications/page.tsx):
    withdrawing an application, the status counts on the summary cards, the
    five tabs, the status labels and the condition for the Withdraw button. */
module Applications {
  import opened Common

  datatype Status = Pending | Reviewed | Interview | Rejected | Offered | Withdrawn

  datatype InterviewKind = Phone | Video | InPerson
  datatype InterviewRecord = InterviewRecord(date: string, kind: InterviewKind, with: string, notes: Option<string>)

  datatype Application = Application(
    id: string, jobTitle: string, company: string, location: string, kind: string,
    salary: string, appliedDate: string, status: Status, notes: Option<string>,
    resume: string, coverLetter: Option<string>, interviews: Option<seq<InterviewRecord>>)

  /** The statuses of the Active tab, for which Withdraw is also offered. */
  const ActiveStatuses: set<Status> := {Pending, Reviewed, Interview}
  /** The statuses of the Archived tab. */
  const ArchivedStatuses: set<Status> := {Rejected, Withdrawn}

  // ---------------------------------------------------------------- withdrawing

  /** `withdrawApplication(id)`: every entry carrying `id` gets status "withdrawn". */
  function Withdraw(apps: seq<Application>, id: string): (r: seq<Application>)
    ensures |r| == |apps|
    ensures forall i :: 0 <= i < |apps| ==>
      r[i] == (if apps[i].id == id then apps[i].(status := Withdrawn) else apps[i])
  {
    if apps == [] then []
    else [if apps[0].id == id then apps[0].(status := Withdrawn) else apps[0]] + Withdraw(apps[1..], id)
  }

  /** Withdrawing twice is withdrawing once. */
  lemma WithdrawIdempotent(apps: seq<Application>, id: string)
    ensures Withdraw(Withdraw(apps, id), id) == Withdraw(apps, id)
  {
  }

  /** The Withdraw button: offered for pending, reviewed and interview statuses,
      that is, for every application neither archived nor offered. */
  function WithdrawOffered(a: Application): (r: bool)
    ensures r <==> !(a.status == Rejected || a.status == Withdrawn || a.status == Offered)
  {
    assert a.status in ActiveStatuses <==> a.status == Pending || a.status == Reviewed || a.status == Interview;
    a.status in ActiveStatuses
  }

  // ---------------------------------------------------------------- tabs

  function HasStatus(st: Status): Application -> bool {
    (a: Application) => a.status == st
  }

  function InActive(a: Application): bool { a.status in ActiveStatuses }
  function InArchived(a: Application): bool { a.status in ArchivedStatuses }

  /** The Active tab: the applications for which Withdraw is offered. */
  function ActiveTab(apps: seq<Application>): (r: seq<Application>)
    ensures |r| <= |apps|
    ensures forall a :: a in r <==> a in apps && WithdrawOffered(a)
  {
    Filter(apps, InActive)
  }

  /** The Archived tab: the rejected and withdrawn applications. */
  function ArchivedTab(apps: seq<Application>): (r: seq<Application>)
    ensures |r| <= |apps|
    ensures forall a :: a in r <==> a in apps && (a.status == Rejected || a.status == Withdrawn)
  {
    Filter(apps, InArchived)
  }

  /** The Interviews tab; it holds as many entries as the "Interview Stage" card counts. */
  function InterviewTab(apps: seq<Application>): (r: seq<Application>)
    ensures forall a :: a in r <==> a in apps && a.status == Interview
    ensures |r| == InterviewCount(apps)
  {
    Filter(apps, HasStatus(Interview))
  }

  /** The Offers tab; it holds as many entries as the "Offers" card counts. */
  function OffersTab(apps: seq<Application>): (r: seq<Application>)
    ensures forall a :: a in r <==> a in apps && a.status == Offered
    ensures |r| == OfferedCount(apps)
  {
    Filter(apps, HasStatus(Offered))
  }

  /** Active and Archived never share an entry, and an offered application is in neither. */
  lemma TabsPartition(apps: seq<Application>, a: Application)
    ensures !(a in ActiveTab(apps) && a in ArchivedTab(apps))
    ensures a.status == Offered ==> a !in ActiveTab(apps) && a !in ArchivedTab(apps)
    ensures a in ActiveTab(apps) <==> a in apps && WithdrawOffered(a)
  {
  }

  /** Withdrawing through the button moves the application from Active to Archived:
      afterwards no Active entry carries the id, and the withdrawn copy is archived. */
  lemma WithdrawMovesToArchived(apps: seq<Application>, i: int)
    requires 0 <= i < |apps| && WithdrawOffered(apps[i])
    ensures apps[i] in ActiveTab(apps)
    ensures apps[i].(status := Withdrawn) in ArchivedTab(Withdraw(apps, apps[i].id))
    ensures forall b :: b in ActiveTab(Withdraw(apps, apps[i].id)) ==> b.id != apps[i].id
  {
    var after := Withdraw(apps, apps[i].id);
    assert apps[i] in apps;
    assert after[i] in after;
    forall b | b in ActiveTab(after)
      ensures b.id != apps[i].id
    {
      WithdrawnLeavesActive(apps, apps[i].id, b);
    }
  }

  /** After withdrawing `id`, no entry of the Active tab carries `id`. */
  lemma WithdrawnLeavesActive(apps: seq<Application>, id: string, b: Application)
    requires b in ActiveTab(Withdraw(apps, id))
    ensures b.id != id
  {
    var after := Withdraw(apps, id);
    assert b in after && InActive(b);
    if b.id == id {
      assert false;
    }
  }

  // ---------------------------------------------------------------- counts

  /** The summary cards: the total and the counts labelled "Pending/Under Review",
      "Interview Stage" and "Offers" (the rejected count is computed too). */
  function Total(apps: seq<Application>): nat { |apps| }

  /** Each card's count is the number of entries with its status, counted one by one. */
  function PendingCount(apps: seq<Application>): (r: nat)
    ensures r == CountWhere(apps, HasStatus(Pending)) && r <= |apps|
  {
    FilterLength(apps, HasStatus(Pending));
    |Filter(apps, HasStatus(Pending))|
  }

  function InterviewCount(apps: seq<Application>): (r: nat)
    ensures r == CountWhere(apps, HasStatus(Interview)) && r <= |apps|
  {
    FilterLength(apps, HasStatus(Interview));
    |Filter(apps, HasStatus(Interview))|
  }

  function RejectedCount(apps: seq<Application>): (r: nat)
    ensures r == CountWhere(apps, HasStatus(Rejected)) && r <= |apps|
  {
    FilterLength(apps, HasStatus(Rejected));
    |Filter(apps, HasStatus(Rejected))|
  }

  function OfferedCount(apps: seq<Application>): (r: nat)
    ensures r == CountWhere(apps, HasStatus(Offered)) && r <= |apps|
  {
    FilterLength(apps, HasStatus(Offered));
    |Filter(apps, HasStatus(Offered))|
  }

  /** The number of entries with status `st`. */
  function StatusCount(apps: seq<Application>, st: Status): (r: nat)
    ensures r == |Filter(apps, HasStatus(st))|
  {
    FilterLength(apps, HasStatus(st));
    CountWhere(apps, HasStatus(st))
  }

  /** Every entry has exactly one status: the six counts add up to the total. */
  lemma {:induction false} StatusCountsPartition(apps: seq<Application>)
    ensures StatusCount(apps, Pending) + StatusCount(apps, Reviewed) + StatusCount(apps, Interview)
          + StatusCount(apps, Rejected) + StatusCount(apps, Offered) + StatusCount(apps, Withdrawn)
            == |apps|
  {
    if apps != [] {
      StatusCountsPartition(apps[1..]);
      assert StatusCount(apps, Pending) == (if apps[0].status == Pending then 1 else 0) + StatusCount(apps[1..], Pending);
      assert StatusCount(apps, Reviewed) == (if apps[0].status == Reviewed then 1 else 0) + StatusCount(apps[1..], Reviewed);
      assert StatusCount(apps, Interview) == (if apps[0].status == Interview then 1 else 0) + StatusCount(apps[1..], Interview);
      assert StatusCount(apps, Rejected) == (if apps[0].status == Rejected then 1 else 0) + StatusCount(apps[1..], Rejected);
      assert StatusCount(apps, Offered) == (if apps[0].status == Offered then 1 else 0) + StatusCount(apps[1..], Offered);
      assert StatusCount(apps, Withdrawn) == (if apps[0].status == Withdrawn then 1 else 0) + StatusCount(apps[1..], Withdrawn);
    }
  }

  /** The four computed counts never exceed the total, and withdrawing keeps the total. */
  lemma CountsBounded(apps: seq<Application>, id: string)
    ensures PendingCount(apps) + InterviewCount(apps) + RejectedCount(apps) + OfferedCount(apps) <= Total(apps)
    ensures Total(Withdraw(apps, id)) == Total(apps)
  {
    StatusCountsPartition(apps);
  }

  /** The card labelled "Pending/Under Review" counts only pending entries: a
      reviewed entry is not counted, although it is listed under Active. */
  lemma PendingCountExcludesReviewed(apps: seq<Application>, a: Application)
    requires a.status == Reviewed
    ensures PendingCount(apps + [a]) == PendingCount(apps)
    ensures |ActiveTab(apps + [a])| == |ActiveTab(apps)| + 1
  {
    FilterConcat(apps, [a], HasStatus(Pending));
    FilterConcat(apps, [a], InActive);
  }

  // ---------------------------------------------------------------- labels

  /** `getStatusBadge`: the badge text of each status, never empty. */
  function BadgeLabel(st: Status): (r: string)
    ensures r != ""
  {
    match st
    case Pending => "Pending Review"
    case Reviewed => "Under Review"
    case Interview => "Interview Stage"
    case Rejected => "Not Selected"
    case Offered => "Offer Received"
    case Withdrawn => "Withdrawn"
  }

  /** The side panel: six `status === x && "label"` fragments rendered one after
      another, where a false fragment renders nothing; exactly one fragment is
      true, so the panel shows the badge's text. */
  function PanelLabel(st: Status): (r: string)
    ensures r == BadgeLabel(st)
  {
    (if st == Pending then "Pending Review" else "")
    + (if st == Reviewed then "Under Review" else "")
    + (if st == Interview then "Interview Stage" else "")
    + (if st == Rejected then "Not Selected" else "")
    + (if st == Offered then "Offer Received" else "")
    + (if st == Withdrawn then "Withdrawn" else "")
  }

  /** The badge and the side panel show the same label for every status, and
      distinct statuses get distinct labels. */
  lemma LabelsAgree(st: Status, other: Status)
    ensures PanelLabel(st) == BadgeLabel(st)
    ensures st != other ==> BadgeLabel(st) != BadgeLabel(other)
  {
  }

  // ---------------------------------------------------------------- the page component

  /** The applications page component and its `applications` state list. */
  class ApplicationsPage {
    var applications: seq<Application>

    constructor (initial: seq<Application>)
      ensures applications == initial
    {
      applications := initial;
    }

    /** `withdrawApplication`: the status update by id; the total is unchanged. */
    method WithdrawApplication(id: string)
      modifies this
      ensures applications == Withdraw(old(applications), id)
      ensures Total(applications) == Total(old(applications))
    {
      applications := Withdraw(applications, id);
    }
  }
}
