/** The employer's applicants page: a status filter and the colour and label mappings. */
module Applicants {
  import Seqs
  import Text
  import Bands

  datatype Applicant = Applicant(
    id: string,
    name: string,
    role: string,
    appliedFor: string,
    matchScore: int,
    status: string,
    appliedDate: string)

  /** The statuses with a colour of their own. */
  const KnownStatuses := ["new", "shortlisted", "hired", "rejected"]

  /**
   * `filteredApplicants`: the whole list for "all", otherwise exactly the applicants whose status
   * equals the filter, each as often as in the list and in the list's order.
   */
  function Filtered(apps: seq<Applicant>, filterStatus: string): (r: seq<Applicant>)
    ensures filterStatus == "all" ==> r == apps
    ensures filterStatus != "all" ==> forall k :: 0 <= k < |r| ==> r[k].status == filterStatus
    ensures filterStatus != "all" ==>
      forall a :: multiset(r)[a] == if a.status == filterStatus then multiset(apps)[a] else 0
  {
    if filterStatus == "all" then apps else Seqs.Filter(apps, (a: Applicant) => a.status == filterStatus)
  }

  /** Filtering a list split in two filters each part: the relative order of the kept applicants is unchanged. */
  lemma FilteredKeepsOrder(a: seq<Applicant>, b: seq<Applicant>, filterStatus: string)
    ensures Filtered(a + b, filterStatus) == Filtered(a, filterStatus) + Filtered(b, filterStatus)
  {
    if filterStatus != "all" {
      Seqs.FilterConcat(a, b, (x: Applicant) => x.status == filterStatus);
    }
  }

  const GrayStatus := "bg-gray-100 text-gray-600 border-gray-400"

  /** `getStatusColor`: one class per known status, gray for every other string. */
  function StatusColor(status: string): (c: string)
    ensures c == GrayStatus <==> status !in KnownStatuses
  {
    match status
    case "new" => "bg-blue-100 text-blue-600 border-blue-400"
    case "shortlisted" => "bg-purple-100 text-purple-600 border-purple-400"
    case "hired" => "bg-green-100 text-green-600 border-green-400"
    case "rejected" => "bg-red-100 text-red-600 border-red-400"
    case _ => GrayStatus
  }

  /** The four known statuses get four different classes. */
  lemma StatusColorsDistinct(s: string, t: string)
    requires s in KnownStatuses && t in KnownStatuses && s != t
    ensures StatusColor(s) != StatusColor(t)
  {
  }

  /** `getMatchScoreColor`: green from 90, blue from 80, yellow below; every score gets exactly one. */
  function MatchScoreColor(score: int): (c: string)
    ensures c == "text-green-600" <==> score >= 90
    ensures c == "text-blue-600" <==> 80 <= score < 90
    ensures c == "text-yellow-600" <==> score < 80
  {
    match Bands.BandOf(score)
    case High => "text-green-600"
    case Mid => "text-blue-600"
    case Low => "text-yellow-600"
  }

  /** The status badge's text: the status with its first letter upper-cased. */
  function StatusLabel(status: string): (l: string)
    ensures |l| == |status|
    ensures status != "" ==> l[0] == Text.Upper(status[0]) && l[1..] == status[1..]
  {
    Text.Capitalize(status)
  }
}
