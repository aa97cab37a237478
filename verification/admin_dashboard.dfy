/** The admin console: the list of employers awaiting approval, accept and reject, logout. */
module AdminDashboard {
  import opened Common
  import Seqs
  import Net

  const ListEndpoint := "http://localhost:3000/api/admin/getUnverifiedEmployerList"
  const AcceptEndpoint := "http://localhost:3000/api/admin/acceptEmployer"
  const RejectEndpoint := "http://localhost:3000/api/admin/rejectEmployer"
  const LoginPage := "/adminlogin"

  /** An employer awaiting approval; `id` is the backend's `_id`. */
  datatype Employer = Employer(id: string, name: string, email: string, isVerified: bool)

  datatype HttpMethod = Patch | Delete

  /** The `{ employerId }` object the backend reads. */
  datatype EmployerRef = EmployerRef(employerId: string)

  /**
   * The configuration object handed to `axios(...)`: method and url, plus whatever the spread
   * payload adds. axios sends only `data` as the request body; a top-level `employerId` is not a
   * configuration option and goes nowhere.
   */
  datatype AxiosConfig = AxiosConfig(
    verb: HttpMethod,
    url: string,
    employerId: Option<string>,
    data: Option<EmployerRef>)

  /** The body axios puts on the wire for a configuration. */
  function BodyOf(c: AxiosConfig): Option<EmployerRef> {
    c.data
  }

  /**
   * `handleDecision`'s request as written: "accepted" spreads `{ employerId: id }` into the
   * configuration, anything else spreads `{ data: { employerId: id } }`.
   */
  function DecisionConfigAsWritten(id: string, decision: string): (c: AxiosConfig)
    ensures c.verb == Patch <==> decision == "accepted"
    ensures c.url == (if decision == "accepted" then AcceptEndpoint else RejectEndpoint)
    ensures decision == "accepted" ==> c.employerId == Some(id) && BodyOf(c) == None
    ensures decision != "accepted" ==> BodyOf(c) == Some(EmployerRef(id))
  {
    if decision == "accepted" then AxiosConfig(Patch, AcceptEndpoint, Some(id), None)
    else AxiosConfig(Delete, RejectEndpoint, None, Some(EmployerRef(id)))
  }

  /** As written, an accept sends a PATCH with no body, so the employer id never reaches the backend. */
  lemma AcceptSendsNoBodyAsWritten(id: string)
    ensures DecisionConfigAsWritten(id, "accepted").verb == Patch
    ensures BodyOf(DecisionConfigAsWritten(id, "accepted")) == None
  {
  }

  /**
   * The intended request: PATCH `acceptEmployer` for "accepted", DELETE `rejectEmployer` for any
   * other decision, each with `{ employerId: id }` as its body.
   */
  function DecisionConfig(id: string, decision: string): (c: AxiosConfig)
    ensures c.verb == Patch <==> decision == "accepted"
    ensures c.url == (if decision == "accepted" then AcceptEndpoint else RejectEndpoint)
    ensures BodyOf(c) == Some(EmployerRef(id))
  {
    if decision == "accepted" then AxiosConfig(Patch, AcceptEndpoint, None, Some(EmployerRef(id)))
    else AxiosConfig(Delete, RejectEndpoint, None, Some(EmployerRef(id)))
  }

  /** The corrected request agrees with the written one on method and url; only the body moves. */
  lemma DecisionConfigFixesOnlyBody(id: string, decision: string)
    ensures DecisionConfig(id, decision).verb == DecisionConfigAsWritten(id, decision).verb
    ensures DecisionConfig(id, decision).url == DecisionConfigAsWritten(id, decision).url
    ensures decision != "accepted" ==> DecisionConfig(id, decision) == DecisionConfigAsWritten(id, decision)
  {
  }

  /** `prev.filter((emp) => emp._id !== id)`: exactly the entries with that id go, the rest keep their order. */
  function WithoutEmployer(list: seq<Employer>, id: string): (r: seq<Employer>)
    ensures forall k :: 0 <= k < |r| ==> r[k].id != id
    ensures forall e :: multiset(r)[e] == if e.id == id then 0 else multiset(list)[e]
  {
    Seqs.Filter(list, (e: Employer) => e.id != id)
  }

  /** Removing from a list split in two removes from each part, so the survivors keep their order. */
  lemma WithoutEmployerKeepsOrder(a: seq<Employer>, b: seq<Employer>, id: string)
    ensures WithoutEmployer(a + b, id) == WithoutEmployer(a, id) + WithoutEmployer(b, id)
  {
    Seqs.FilterConcat(a, b, (e: Employer) => e.id != id);
  }

  /** A list without `id` is left as it is. */
  lemma WithoutAbsentEmployer(list: seq<Employer>, id: string)
    requires forall k :: 0 <= k < |list| ==> list[k].id != id
    ensures WithoutEmployer(list, id) == list
  {
    if list != [] {
      assert list == [list[0]] + list[1..];
      WithoutEmployerKeepsOrder([list[0]], list[1..], id);
      WithoutAbsentEmployer(list[1..], id);
    }
  }

  /** Removing an id that some entry carries makes the list strictly shorter. */
  lemma WithoutPresentEmployerShrinks(list: seq<Employer>, id: string)
    requires exists e :: e in list && e.id == id
    ensures |WithoutEmployer(list, id)| < |list|
  {
    var e :| e in list && e.id == id;
    var r := WithoutEmployer(list, id);
    assert multiset(r)[e] == 0 < multiset(list)[e];
    var rest := multiset(list) - multiset(r);
    assert multiset(r) <= multiset(list);
    assert multiset(list) == multiset(r) + rest;
    assert e in rest;
  }

  /** The reply to the list request: a failure, or a body whose `data` field may be missing. */
  datatype FetchReply = FetchFailed | Fetched(data: Option<seq<Employer>>)

  /** `data.data || []`. */
  function FetchedList(data: Option<seq<Employer>>): (r: seq<Employer>)
    ensures data.Some? ==> r == data.value
    ensures data.None? ==> r == []
  {
    match data
    case Some(list) => list
    case None => []
  }

  /** Accept and Reject are rendered only for an employer that is not verified yet. */
  predicate ShowsDecisionButtons(e: Employer) {
    !e.isVerified
  }

  /** The ids of the listed employers whose row shows the Accept and Reject buttons. */
  function Pending(list: seq<Employer>): set<string> {
    set e | e in list && ShowsDecisionButtons(e) :: e.id
  }

  /** After a successful decision on `id`, the rows with buttons are the earlier ones less `id`'s. */
  lemma PendingAfterDecision(list: seq<Employer>, id: string)
    ensures Pending(WithoutEmployer(list, id)) == Pending(list) - {id}
  {
    var r := WithoutEmployer(list, id);
    forall e | e in r ensures e in list && e.id != id {
      assert multiset(r)[e] > 0;
    }
    forall e | e in list && e.id != id ensures e in r {
      assert multiset(list)[e] > 0;
    }
  }

  datatype Request = ListEmployers(token: string) | Decide(config: AxiosConfig, token: string)

  /** The dashboard's state cells, with local storage, navigation and the issued requests. */
  class Dashboard {
    const token: string
    var loading: bool
    var employers: seq<Employer>
    /** Every request issued so far, with `loading` at the time it went out. */
    var sent: seq<Net.Sent<Request>>
    /** Local storage, as string entries by key. */
    var storage: map<string, string>
    /** The last page navigated to. */
    var location: Option<string>

    /** The state between two events: no list request in flight. */
    ghost predicate Valid()
      reads this
    {
      !loading
    }

    /** A decision can be made on `id` when its row shows the Accept and Reject buttons. */
    ghost predicate DecisionOffered(id: string)
      reads this
    {
      id in Pending(employers)
    }

    constructor(token: string, storage: map<string, string>)
      ensures Valid() && this.token == token && employers == [] && sent == []
      ensures this.storage == storage && location == None
    {
      this.token := token;
      loading := false;
      employers := [];
      sent := [];
      this.storage := storage;
      location := None;
    }

    /**
     * `fetchEmployers`: the request goes out with `loading` set; a reply replaces the list with
     * `data.data`, or `[]` when that is missing; a failure leaves the list; `loading` ends false.
     */
    method FetchEmployers(reply: FetchReply)
      requires Valid()
      modifies this`loading, this`employers, this`sent
      ensures Valid()
      ensures sent == old(sent) + [Net.Sent(ListEmployers(token), true)]
      ensures reply.Fetched? ==> employers == FetchedList(reply.data)
      ensures reply.FetchFailed? ==> employers == old(employers)
    {
      loading := true;
      sent := sent + [Net.Sent(ListEmployers(token), loading)];
      if reply.Fetched? {
        employers := FetchedList(reply.data);
      }
      loading := false;
    }

    /**
     * The outcome of a decision request: `config` goes out; when it succeeds the entries with that
     * id leave the list and the rest keep their order; when it fails nothing changes.
     */
    method Resolve(config: AxiosConfig, id: string, ok: bool)
      requires Valid() && DecisionOffered(id)
      modifies this`employers, this`sent
      ensures Valid()
      ensures sent == old(sent) + [Net.Sent(Decide(config, token), false)]
      ensures ok ==> employers == WithoutEmployer(old(employers), id) && |employers| < |old(employers)|
      ensures ok ==> Pending(employers) == Pending(old(employers)) - {id}
      ensures !ok ==> employers == old(employers)
    {
      sent := sent + [Net.Sent(Decide(config, token), loading)];
      if ok {
        WithoutPresentEmployerShrinks(employers, id);
        PendingAfterDecision(employers, id);
        employers := WithoutEmployer(employers, id);
      }
    }

    /**
     * `handleDecision` as written, from a row's Accept or Reject button: the written request (an
     * accept carries no body); when it succeeds, that id leaves the list and its buttons go.
     */
    method HandleDecision(id: string, decision: string, ok: bool)
      requires Valid() && DecisionOffered(id)
      modifies this`employers, this`sent
      ensures Valid()
      ensures sent == old(sent) + [Net.Sent(Decide(DecisionConfigAsWritten(id, decision), token), false)]
      ensures ok ==> employers == WithoutEmployer(old(employers), id) && |employers| < |old(employers)|
      ensures ok ==> Pending(employers) == Pending(old(employers)) - {id}
      ensures !ok ==> employers == old(employers)
    {
      Resolve(DecisionConfigAsWritten(id, decision), id, ok);
    }

    /** `handleDecision` as intended: the same, with `{ employerId: id }` as the body of either request. */
    method HandleDecisionFixed(id: string, decision: string, ok: bool)
      requires Valid() && DecisionOffered(id)
      modifies this`employers, this`sent
      ensures Valid()
      ensures sent == old(sent) + [Net.Sent(Decide(DecisionConfig(id, decision), token), false)]
      ensures ok ==> employers == WithoutEmployer(old(employers), id) && |employers| < |old(employers)|
      ensures ok ==> Pending(employers) == Pending(old(employers)) - {id}
      ensures !ok ==> employers == old(employers)
    {
      Resolve(DecisionConfig(id, decision), id, ok);
    }

    /** `handleLogout`: clears all of local storage and goes to the admin login page. */
    method HandleLogout()
      modifies this`storage, this`location
      ensures storage == map[] && location == Some(LoginPage)
    {
      storage := map[];
      location := Some(LoginPage);
    }
  }
}
