/** The employer's view of the applications to one job: the list, a
    status filter with counts, status badges and the accept/reject buttons
    that send a status update and then reload. */
module JobApplications {
  import opened Wrappers
  import opened JsText
  import opened JsValue
  import opened Seqs
  import opened Backend

  /** One application as this page uses it. */
  datatype Applicant = Applicant(id: string, status: Option<string>)

  /** `app.status?.toLowerCase()` compared with a lower-case status. */
  predicate StatusIs(a: Applicant, s: string) {
    a.status.Some? && ToLower(a.status.value) == s
  }

  /** `getStatusClass`: 'accepted' and 'approved' share the accepted class,
      'rejected' has its own, and everything else, pending included, is
      styled as pending; letter case does not matter. */
  function StatusClass(status: Option<string>): (c: string)
    ensures c in {"status-pending", "status-accepted", "status-rejected"}
    ensures c == "status-accepted" <==> status.Some? && ToLower(status.value) in {"accepted", "approved"}
    ensures c == "status-rejected" <==> status.Some? && ToLower(status.value) == "rejected"
  {
    if status.None? then "status-pending"
    else
      match ToLower(status.value)
      case "pending" => "status-pending"
      case "accepted" => "status-accepted"
      case "approved" => "status-accepted"
      case "rejected" => "status-rejected"
      case _ => "status-pending"
  }

  /** The class does not depend on letter case. */
  lemma StatusClassIgnoresCase(s: string)
    ensures StatusClass(Some(ToUpper(s))) == StatusClass(Some(s))
  {
    LowerForgetsCase(s);
  }

  /** `filteredApplications`. */
  function Filtered(apps: seq<Applicant>, filter: string): (r: seq<Applicant>)
    ensures filter == "all" ==> r == apps
    ensures filter != "all" ==> forall a :: a in r <==> a in apps && StatusIs(a, filter)
  {
    if filter == "all" then apps else Filter(apps, (a: Applicant) => StatusIs(a, filter))
  }

  /** The shown list keeps the order of the fetched one: filtering a list
      made of two parts filters each part in turn. */
  lemma FilteredKeepsOrder(xs: seq<Applicant>, ys: seq<Applicant>, filter: string)
    ensures Filtered(xs + ys, filter) == Filtered(xs, filter) + Filtered(ys, filter)
  {
    if filter != "all" {
      FilterAppend(xs, ys, (a: Applicant) => StatusIs(a, filter));
    }
  }

  /** The count on a status button (the 'All' button shows the length). */
  function Count(apps: seq<Applicant>, s: string): (n: nat)
    ensures s != "all" ==> n == |Filtered(apps, s)|
    ensures n <= |apps|
  {
    |Filter(apps, (a: Applicant) => StatusIs(a, s))|
  }

  /** The three status counts never count one application twice: together
      they are at most the 'All' count. */
  lemma {:induction false} CountsWithinTotal(apps: seq<Applicant>)
    ensures Count(apps, "pending") + Count(apps, "accepted") + Count(apps, "rejected") <= |Filtered(apps, "all")|
    decreases |apps|
  {
    if |apps| > 0 {
      CountsWithinTotal(apps[1..]);
    }
  }

  // ---------------------------------------------------------------- actions

  datatype Action = Accept | Reject

  /** The status each button sends. */
  function Sent(action: Action): string {
    match action
    case Accept => "Accepted"
    case Reject => "Rejected"
  }

  /** The Accept button shows unless the application is already accepted. */
  predicate ShowAccept(a: Applicant): (b: bool)
    ensures !b ==> !StatusIs(a, "rejected")
  {
    !StatusIs(a, "accepted")
  }

  /** The Reject button shows unless the application is already rejected. */
  predicate ShowReject(a: Applicant): (b: bool)
    ensures !b ==> !StatusIs(a, "accepted")
  {
    !StatusIs(a, "rejected")
  }

  /** Whether the button for an action is shown. */
  predicate Shows(a: Applicant, action: Action) {
    match action
    case Accept => ShowAccept(a)
    case Reject => ShowReject(a)
  }

  /** Every application offers at least one button, and once the status a
      button sends is stored, that button disappears while the other one
      shows. */
  lemma ButtonsFollowStatus(a: Applicant, action: Action)
    ensures ShowAccept(a) || ShowReject(a)
    ensures !Shows(a.(status := Some(Sent(action))), action)
    ensures Shows(a.(status := Some(Sent(action))), if action == Accept then Reject else Accept)
  {
    assert ToLower("Accepted") == "accepted";
    assert ToLower("Rejected") == "rejected";
  }

  /** An 'approved' application is styled as accepted, yet still offers the
      Accept button and is not counted under Accepted. */
  lemma ApprovedIsStyledButNotCounted(id: string)
    ensures var a := Applicant(id, Some("approved"));
      StatusClass(a.status) == "status-accepted" && ShowAccept(a) && Count([a], "accepted") == 0
  {
    var a := Applicant(id, Some("approved"));
    assert ToLower("approved") == "approved";
    assert Filter([a], (x: Applicant) => StatusIs(x, "accepted")) == [];
  }

  /** The PUT a status button makes. */
  datatype StatusUpdate = StatusUpdate(path: string, body: Obj)

  /** `handleStatusChange(id, status)`: the request sent, and whether the
      page reloads afterwards (only when the request succeeded). */
  function StatusChange(id: string, action: Action, ok: bool): (r: (StatusUpdate, bool))
    ensures r.0.path == "/applications/" + id + "/status"
    ensures r.0.body.Keys == {"status"}
    ensures r.0.body["status"] == JStr(Sent(action))
    ensures r.1 == ok
  {
    (StatusUpdate("/applications/" + id + "/status", map["status" := JStr(Sent(action))]), ok)
  }

  // ---------------------------------------------------------------- the page

  class Page {
    var applications: seq<Applicant>
    var loading: bool
    var filter: string

    constructor()
      ensures applications == [] && loading && filter == "all"
    {
      applications := [];
      loading := true;
      filter := "all";
    }

    /** `fetchJobAndApplications` completes: both requests succeeding
        sets the list (a missing list reads as empty); either failing keeps
        the old list; loading ends either way. */
    method Load(reply: Call<Option<seq<Applicant>>>)
      modifies this
      ensures reply.Resolved? ==> applications == reply.value.GetOr([])
      ensures reply.Rejected? ==> applications == old(applications)
      ensures !loading && filter == old(filter)
    {
      if reply.Resolved? {
        applications := reply.value.GetOr([]);
      }
      loading := false;
    }

    /** A filter button. */
    method SetFilter(f: string)
      modifies this
      ensures filter == f
      ensures applications == old(applications) && loading == old(loading)
    {
      filter := f;
    }

    /** What the list shows. */
    function Shown(): seq<Applicant>
      reads this
    {
      Filtered(applications, filter)
    }
  }
}
