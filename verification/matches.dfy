/** The candidate's job matches: three sort orders, the salary parser, the apply set and the score badge. */
module Matches {
  import Decimal
  import Bands
  import Seqs

  datatype JobMatch = JobMatch(
    id: string,
    title: string,
    company: string,
    matchScore: int,
    skills: seq<string>,
    location: string,
    salary: string,
    description: string)

  /** A number as `getMin` can produce it: `parseInt` of no digits is NaN. */
  datatype Num = NaN | Finite(value: nat)

  /** `s.split("-")[0]`: the text before the first dash, or all of `s` when there is none. */
  function BeforeDash(s: string): (r: string)
    ensures |r| <= |s| && r == s[..|r|]
    ensures '-' !in r
    ensures |r| < |s| ==> s[|r|] == '-'
  {
    if s == [] || s[0] == '-' then [] else [s[0]] + BeforeDash(s[1..])
  }

  /** `s.replace(/\D/g, "")`: every digit of `s`, in order, and nothing else. */
  function KeepDigits(s: string): (r: string)
    ensures Decimal.AllDigits(r)
    ensures forall c :: multiset(r)[c] == if Decimal.IsDigit(c) then multiset(s)[c] else 0
  {
    Seqs.Filter(s, Decimal.IsDigit)
  }

  /**
   * `getMin`: 0 for the empty string; otherwise 1000 times the number spelled by the digits
   * before the first dash, and NaN when there are none.
   */
  function GetMin(s: string): (r: Num)
    ensures s == "" ==> r == Finite(0)
    ensures s != "" && KeepDigits(BeforeDash(s)) == "" ==> r == NaN
    ensures r.Finite? ==> r.value % 1000 == 0
  {
    if s == "" then Finite(0)
    else
      var digits := KeepDigits(BeforeDash(s));
      if digits == "" then NaN else Finite(Decimal.Value(digits) * 1000)
  }

  lemma {:induction false} BeforeDashStops(p: string, rest: string)
    requires '-' !in p
    ensures BeforeDash(p + "-" + rest) == p
  {
    if p != [] {
      assert (p + "-" + rest)[1..] == p[1..] + "-" + rest;
      BeforeDashStops(p[1..], rest);
    }
  }

  lemma {:induction false} KeepDigitsOfDigits(s: string)
    requires Decimal.AllDigits(s)
    ensures KeepDigits(s) == s
  {
    if s != [] {
      KeepDigitsOfDigits(s[1..]);
    }
  }

  /** The digits of "$<digits>k " are exactly `digits`. */
  lemma DigitsOfAmount(digits: string)
    requires Decimal.AllDigits(digits)
    ensures KeepDigits("$" + digits + "k ") == digits
  {
    Seqs.FilterConcat("$" + digits, "k ", Decimal.IsDigit);
    Seqs.FilterConcat("$", digits, Decimal.IsDigit);
    KeepDigitsOfDigits(digits);
    assert KeepDigits("$") == [];
    assert KeepDigits("k ") == [];
  }

  /** The digits before the dash of "$<digits>k - <rest>" are exactly `digits`. */
  lemma RangeDigits(digits: string, rest: string)
    requires Decimal.AllDigits(digits)
    ensures KeepDigits(BeforeDash("$" + digits + "k - " + rest)) == digits
  {
    var lead := "$" + digits + "k ";
    assert "$" + digits + "k - " + rest == lead + "-" + (" " + rest) by {
      assert "k - " == "k " + "-" + " ";
    }
    assert '-' !in lead by {
      assert forall k :: 0 <= k < |digits| ==> Decimal.IsDigit(digits[k]);
    }
    BeforeDashStops(lead, " " + rest);
    DigitsOfAmount(digits);
  }

  /** Text without a dash is its own `split("-")[0]`. */
  lemma {:induction false} BeforeDashWhole(p: string)
    requires '-' !in p
    ensures BeforeDash(p) == p
  {
    if p != [] {
      assert p[0] in p;
      assert '-' !in p[1..] by {
        assert forall k :: 0 <= k < |p[1..]| ==> p[1..][k] == p[k + 1];
      }
      BeforeDashWhole(p[1..]);
    }
  }

  /**
   * Whatever follows the first dash, a salary whose text before it holds some digit has minimum
   * 1000 times the number those digits spell.
   */
  lemma {:induction false} GetMinBeforeDash(p: string, rest: string)
    requires '-' !in p && Seqs.Filter(p, Decimal.IsDigit) != []
    ensures GetMin(p + "-" + rest) == Finite(1000 * Decimal.Value(Seqs.Filter(p, Decimal.IsDigit)))
  {
    BeforeDashStops(p, rest);
  }

  /** A salary with no dash and some digit has minimum 1000 times the number its digits spell. */
  lemma {:induction false} GetMinWithoutDash(p: string)
    requires '-' !in p && Seqs.Filter(p, Decimal.IsDigit) != []
    ensures GetMin(p) == Finite(1000 * Decimal.Value(Seqs.Filter(p, Decimal.IsDigit)))
  {
    BeforeDashWhole(p);
    var digits := KeepDigits(BeforeDash(p));
    assert digits == Seqs.Filter(p, Decimal.IsDigit);
    assert p != "";
  }

  /** A salary written "$<n>k - <anything>" has minimum n thousand. */
  lemma GetMinOfRange(n: nat, rest: string)
    ensures GetMin("$" + Decimal.Show(n) + "k - " + rest) == Finite(n * 1000)
  {
    var digits := Decimal.Show(n);
    RangeDigits(digits, rest);
    Decimal.ValueOfShow(n);
  }

  /** The salary of the first mock job. */
  lemma GetMinExample()
    ensures GetMin("$150k - $180k") == Finite(150000)
  {
    assert Decimal.Show(150) == "150";
    assert "$150k - $180k" == "$" + Decimal.Show(150) + "k - " + "$180k";
    GetMinOfRange(150, "$180k");
  }

  /** The three orders offered; any other key falls back to the score order. */
  datatype SortKey = ByScore | ByCompany | BySalary

  function KeyOf(sortBy: string): (k: SortKey)
    ensures k == ByCompany <==> sortBy == "company"
    ensures k == BySalary <==> sortBy == "salary"
    ensures k == ByScore <==> sortBy != "company" && sortBy != "salary"
  {
    if sortBy == "company" then ByCompany
    else if sortBy == "salary" then BySalary
    else ByScore
  }

  /**
   * Whether the comparator allows `a` before `b` (it returns at most 0). `companyLe` stands for
   * `localeCompare(x, y) <= 0`. A NaN difference counts as 0, so a NaN salary is level with any other.
   */
  predicate InOrder(key: SortKey, companyLe: (string, string) -> bool, a: JobMatch, b: JobMatch)
    ensures key == ByScore ==> (InOrder(key, companyLe, a, b) <==> b.matchScore - a.matchScore <= 0)
    ensures key == ByCompany ==> (InOrder(key, companyLe, a, b) <==> companyLe(a.company, b.company))
    ensures key == BySalary && GetMin(a.salary).Finite? && GetMin(b.salary).Finite? ==>
      (InOrder(key, companyLe, a, b) <==> GetMin(b.salary).value - GetMin(a.salary).value <= 0)
    ensures key == BySalary && (GetMin(a.salary).NaN? || GetMin(b.salary).NaN?) ==> InOrder(key, companyLe, a, b)
  {
    match key
    case ByScore => a.matchScore >= b.matchScore
    case ByCompany => companyLe(a.company, b.company)
    case BySalary =>
      match (GetMin(a.salary), GetMin(b.salary))
      case (Finite(x), Finite(y)) => x >= y
      case _ => true
  }

  ghost predicate Total(le: (string, string) -> bool) {
    forall x, y :: le(x, y) || le(y, x)
  }

  /** Every two neighbours of `s` are in comparator order. */
  ghost predicate Sorted(s: seq<JobMatch>, key: SortKey, le: (string, string) -> bool) {
    forall k :: 0 < k < |s| ==> InOrder(key, le, s[k - 1], s[k])
  }

  lemma InOrderTotal(key: SortKey, le: (string, string) -> bool, a: JobMatch, b: JobMatch)
    requires Total(le)
    ensures InOrder(key, le, a, b) || InOrder(key, le, b, a)
  {
  }

  /** Comparator order is transitive on the elements of `s`. */
  ghost predicate TransitiveOn(s: seq<JobMatch>, key: SortKey, le: (string, string) -> bool) {
    forall a, b, c :: a in s && b in s && c in s && InOrder(key, le, a, b) && InOrder(key, le, b, c)
      ==> InOrder(key, le, a, c)
  }

  /** Neighbour order carries from position i to any later position j, one step at a time. */
  lemma {:induction false} OrderedAt(s: seq<JobMatch>, key: SortKey, le: (string, string) -> bool, i: nat, j: nat)
    requires Sorted(s, key, le) && TransitiveOn(s, key, le)
    requires i < j < |s|
    ensures InOrder(key, le, s[i], s[j])
    decreases j - i
  {
    if i + 1 < j {
      OrderedAt(s, key, le, i, j - 1);
      assert InOrder(key, le, s[j - 1], s[j]);
      assert s[i] in s && s[j - 1] in s && s[j] in s;
    }
  }

  /** With a transitive order, neighbour order is order between any two positions. */
  lemma SortedPairwise(s: seq<JobMatch>, key: SortKey, le: (string, string) -> bool)
    requires Sorted(s, key, le)
    requires TransitiveOn(s, key, le)
    ensures forall i, j :: 0 <= i < j < |s| ==> InOrder(key, le, s[i], s[j])
  {
    forall i, j | 0 <= i < j < |s| ensures InOrder(key, le, s[i], s[j]) {
      OrderedAt(s, key, le, i, j);
    }
  }

  /** Sorted by score: scores never increase along the list. */
  lemma ScoreOrderDescends(s: seq<JobMatch>, le: (string, string) -> bool)
    requires Sorted(s, ByScore, le)
    ensures forall i, j :: 0 <= i < j < |s| ==> s[i].matchScore >= s[j].matchScore
  {
    SortedPairwise(s, ByScore, le);
  }

  /** Sorted by salary, when every salary parses: minimum salaries never increase along the list. */
  lemma SalaryOrderDescends(s: seq<JobMatch>, le: (string, string) -> bool)
    requires Sorted(s, BySalary, le)
    requires forall k :: 0 <= k < |s| ==> GetMin(s[k].salary).Finite?
    ensures forall i, j :: 0 <= i < j < |s| ==> GetMin(s[i].salary).value >= GetMin(s[j].salary).value
  {
    forall a, b, c | a in s && b in s && c in s && InOrder(BySalary, le, a, b) && InOrder(BySalary, le, b, c)
      ensures InOrder(BySalary, le, a, c)
    {
      var i :| 0 <= i < |s| && s[i] == a;
      var j :| 0 <= j < |s| && s[j] == b;
      var k :| 0 <= k < |s| && s[k] == c;
    }
    SortedPairwise(s, BySalary, le);
  }

  /** Sorted by company, when the comparison is transitive: companies ascend along the list. */
  lemma CompanyOrderAscends(s: seq<JobMatch>, le: (string, string) -> bool)
    requires Sorted(s, ByCompany, le)
    requires forall x, y, z :: le(x, y) && le(y, z) ==> le(x, z)
    ensures forall i, j :: 0 <= i < j < |s| ==> le(s[i].company, s[j].company)
  {
    SortedPairwise(s, ByCompany, le);
  }

  /** Exchanges two elements of `a`, leaving the rest in place. */
  method Swap<T>(a: array<T>, i: nat, j: nat)
    requires i < a.Length && j < a.Length
    modifies a
    ensures a[i] == old(a[j]) && a[j] == old(a[i])
    ensures forall k :: 0 <= k < a.Length && k != i && k != j ==> a[k] == old(a[k])
    ensures multiset(a[..]) == old(multiset(a[..]))
  {
    a[i], a[j] := a[j], a[i];
  }

  /**
   * `Array.prototype.sort` with a comparator, in place: afterwards the array holds the same
   * elements and every two neighbours are in comparator order (`le(x, y)`: x may precede y).
   */
  method SortInPlace<T(!new)>(a: array<T>, le: (T, T) -> bool)
    requires forall x, y :: le(x, y) || le(y, x)
    modifies a
    ensures multiset(a[..]) == old(multiset(a[..]))
    ensures forall k :: 0 < k < a.Length ==> le(a[k - 1], a[k])
  {
    var i := 0;
    while i < a.Length
      invariant 0 <= i <= a.Length
      invariant multiset(a[..]) == old(multiset(a[..]))
      invariant forall k :: 0 < k < i ==> le(a[k - 1], a[k])
    {
      var j := i;
      while j > 0 && !le(a[j - 1], a[j])
        invariant 0 <= j <= i
        invariant multiset(a[..]) == old(multiset(a[..]))
        invariant forall k :: 0 < k <= i && k != j ==> le(a[k - 1], a[k])
        invariant 0 < j < i ==> le(a[j - 1], a[j + 1])
      {
        label Step:
        assert le(a[j], a[j - 1]);
        Swap(a, j - 1, j);
        forall k | 0 < k <= i && k != j - 1 ensures le(a[k - 1], a[k]) {
          if k == j + 1 {
            assert a[k - 1] == old@Step(a[j - 1]);
          }
        }
        j := j - 1;
      }
      i := i + 1;
    }
  }

  /**
   * `sortedJobs`: copies the list into a fresh array and sorts the copy in place (the list itself
   * is a value and stays as it was). The result is a permutation of the list in comparator order.
   */
  method SortedJobs(jobs: seq<JobMatch>, sortBy: string, companyLe: (string, string) -> bool)
    returns (r: seq<JobMatch>)
    requires Total(companyLe)
    ensures multiset(r) == multiset(jobs)
    ensures Sorted(r, KeyOf(sortBy), companyLe)
  {
    var key := KeyOf(sortBy);
    var a := new JobMatch[|jobs|](k requires 0 <= k < |jobs| => jobs[k]);
    assert a[..] == jobs;
    forall x, y ensures InOrder(key, companyLe, x, y) || InOrder(key, companyLe, y, x) {
      InOrderTotal(key, companyLe, x, y);
    }
    SortInPlace(a, (x, y) => InOrder(key, companyLe, x, y));
    r := a[..];
  }

  /** The badge colour: green from 90, blue from 80, yellow below. */
  function BadgeClass(score: int): (c: string)
    ensures c == "bg-green-100 text-green-600" <==> score >= 90
    ensures c == "bg-blue-100 text-blue-600" <==> 80 <= score < 90
    ensures c == "bg-yellow-100 text-yellow-600" <==> score < 80
  {
    match Bands.BandOf(score)
    case High => "bg-green-100 text-green-600"
    case Mid => "bg-blue-100 text-blue-600"
    case Low => "bg-yellow-100 text-yellow-600"
  }

  /** The page's state cells: the selected sort key and the ids applied to. */
  class MatchesPage {
    var sortBy: string
    var applied: set<string>

    constructor()
      ensures sortBy == "score" && applied == {}
    {
      sortBy := "score";
      applied := {};
    }

    /** A sort button. */
    method SelectSort(option: string)
      modifies this`sortBy
      ensures sortBy == option
    {
      sortBy := option;
    }

    /** `handleApply`: copies the set, adds the id and stores the copy; applying twice changes nothing more. */
    method HandleApply(jobId: string)
      modifies this`applied
      ensures applied == old(applied) + {jobId}
      ensures jobId in old(applied) ==> applied == old(applied)
    {
      var newApplied := applied;
      newApplied := newApplied + {jobId};
      applied := newApplied;
    }

    /** `handleReject` only logs the id: no state changes. */
    method HandleReject(jobId: string)
      ensures unchanged(this)
    {
    }
  }
}
