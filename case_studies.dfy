/**
  The case-study grid: the constant list of case studies, the industry
  filter selected by a tab, the optional display limit, the tab list built
  from the distinct lowercased industries, the tab labels and the
  "View all" link condition.
 */
module CaseStudies {
  import opened JsValues

  /** A case study; the fields that only feed the card's text are left out. */
  datatype CaseStudy = CaseStudy(id: string, industry: string)

  const AllCaseStudies: seq<CaseStudy> := [
    CaseStudy("healthcare-translation", "Healthcare"),
    CaseStudy("legal-interpretation", "Legal"),
    CaseStudy("website-localization", "E-commerce"),
    CaseStudy("community-outreach", "Non-profit")
  ]

  /** The tab that shows every case study. */
  const AllTab := "all"

  /** `studies.filter(study => study.industry.toLowerCase() === tab)` */
  function FilterByIndustry(studies: seq<CaseStudy>, tab: string): (r: seq<CaseStudy>)
    ensures |r| <= |studies|
    ensures forall s :: s in r <==> s in studies && Lower(s.industry) == tab
  {
    if studies == [] then []
    else (if Lower(studies[0].industry) == tab then [studies[0]] else []) + FilterByIndustry(studies[1..], tab)
  }

  /** Filtering keeps the original order: it distributes over concatenation. */
  lemma {:induction false} FilterAppend(a: seq<CaseStudy>, b: seq<CaseStudy>, tab: string)
    ensures FilterByIndustry(a + b, tab) == FilterByIndustry(a, tab) + FilterByIndustry(b, tab)
  {
    if a == [] {
      assert a + b == b;
    } else {
      assert (a + b)[0] == a[0];
      assert (a + b)[1..] == a[1..] + b;
      FilterAppend(a[1..], b, tab);
    }
  }

  /** `filteredCaseStudies` */
  function Filtered(studies: seq<CaseStudy>, activeTab: string): (r: seq<CaseStudy>)
    ensures activeTab == AllTab ==> r == studies
    ensures activeTab != AllTab ==> forall s :: s in r <==> s in studies && Lower(s.industry) == activeTab
  {
    if activeTab == AllTab then studies else FilterByIndustry(studies, activeTab)
  }

  /** A number `limit` that JavaScript treats as true: defined and non-zero. */
  predicate LimitTruthy(limit: Option<int>)
  {
    limit.Some? && limit.value != 0
  }

  /** `limit ? filtered.slice(0, limit) : filtered`, with `slice` counting a negative end from the back. */
  function Displayed(filtered: seq<CaseStudy>, limit: Option<int>): (r: seq<CaseStudy>)
    ensures r <= filtered
    ensures !LimitTruthy(limit) ==> r == filtered
    ensures LimitTruthy(limit) && limit.value > 0 ==>
      |r| == if limit.value < |filtered| then limit.value else |filtered|
    ensures LimitTruthy(limit) && limit.value < 0 ==>
      |r| == if |filtered| + limit.value > 0 then |filtered| + limit.value else 0
  {
    if !LimitTruthy(limit) then filtered
    else
      var k := limit.value;
      var end := if k >= 0 then (if k < |filtered| then k else |filtered|)
                 else (if |filtered| + k > 0 then |filtered| + k else 0);
      filtered[..end]
  }

  /** `limit && filteredCaseStudies.length > limit`: the "View all" link. */
  predicate ShowViewAll(filtered: seq<CaseStudy>, limit: Option<int>)
  {
    LimitTruthy(limit) && |filtered| > limit.value
  }

  /** With a positive limit, the link is shown exactly when some filtered case study is not displayed. */
  lemma ViewAllIffTruncated(filtered: seq<CaseStudy>, limit: Option<int>)
    requires limit.Some? && limit.value > 0
    ensures ShowViewAll(filtered, limit) <==> |Displayed(filtered, limit)| < |filtered|
  {
  }

  /** `Array.from(new Set(s))`: the distinct elements in order of first occurrence. */
  function Distinct(s: seq<string>): (r: seq<string>)
    ensures NoDuplicates(r)
    ensures forall x :: x in r <==> x in s
    ensures |r| <= |s|
  {
    if s == [] then []
    else
      var prefix := Distinct(s[..|s| - 1]);
      var last := s[|s| - 1];
      assert forall x :: x in s <==> x in s[..|s| - 1] || x == last;
      if last in prefix then prefix else prefix + [last]
  }

  /** First-occurrence order: the distinct elements of a prefix are a prefix of the distinct elements. */
  lemma {:induction false} DistinctPrefix(s: seq<string>, i: nat)
    requires i <= |s|
    ensures Distinct(s[..i]) <= Distinct(s)
  {
    if i < |s| {
      DistinctPrefix(s[..|s| - 1], i);
      assert s[..|s| - 1][..i] == s[..i];
    } else {
      assert s[..i] == s;
    }
  }

  /** A list that already has no duplicates is left as it is. */
  lemma {:induction false} DistinctOfDistinct(s: seq<string>)
    requires NoDuplicates(s)
    ensures Distinct(s) == s
  {
    if s != [] {
      DistinctOfDistinct(s[..|s| - 1]);
    }
  }

  function LowerIndustries(studies: seq<CaseStudy>): (r: seq<string>)
    ensures |r| == |studies|
    ensures forall i :: 0 <= i < |studies| ==> r[i] == Lower(studies[i].industry)
  {
    if studies == [] then [] else [Lower(studies[0].industry)] + LowerIndustries(studies[1..])
  }

  /** `industries`: the "all" tab, then one tab per distinct lowercased industry. */
  function Industries(studies: seq<CaseStudy>): (r: seq<string>)
    ensures |r| >= 1 && r[0] == AllTab
    ensures r[1..] == Distinct(LowerIndustries(studies))
    ensures NoDuplicates(r[1..])
    ensures forall t :: t in r[1..] <==> exists s :: s in studies && Lower(s.industry) == t
  {
    var lowered := LowerIndustries(studies);
    assert forall t :: t in lowered <==> exists s :: s in studies && Lower(s.industry) == t by {
      forall t | t in lowered ensures exists s :: s in studies && Lower(s.industry) == t {
        var i :| 0 <= i < |lowered| && lowered[i] == t;
        assert studies[i] in studies;
      }
      forall t | exists s :: s in studies && Lower(s.industry) == t ensures t in lowered {
        var s :| s in studies && Lower(s.industry) == t;
        var i :| 0 <= i < |studies| && studies[i] == s;
        assert lowered[i] == t;
      }
    }
    [AllTab] + Distinct(lowered)
  }

  /** Every industry tab selects at least one case study. */
  lemma IndustryTabsNonEmpty(studies: seq<CaseStudy>, t: string)
    requires t in Industries(studies)[1..]
    ensures Filtered(studies, t) != [] || t == AllTab
  {
    var s :| s in studies && Lower(s.industry) == t;
    if t != AllTab {
      assert s in Filtered(studies, t);
    }
  }

  /** `industry.charAt(0).toUpperCase() + industry.slice(1)` */
  function TabLabel(industry: string): (caption: string)
    ensures |caption| == |industry|
    ensures industry != "" ==> caption[0] == UpperChar(industry[0]) && caption[1..] == industry[1..]
  {
    if industry == "" then "" else [UpperChar(industry[0])] + industry[1..]
  }

  /** A label differs from its tab only in case. */
  lemma LabelLowersToTab(industry: string)
    ensures Lower(TabLabel(industry)) == Lower(industry)
  {
    if industry != "" {
      LowerUpperChar(industry[0]);
    }
  }

  /** The component's only state: the selected tab, and the `limit` prop it was given. */
  datatype View = View(activeTab: string, limit: Option<int>)

  /** The initial view shows the "all" tab. */
  function InitialView(limit: Option<int>): (v: View)
    ensures Filtered(AllCaseStudies, v.activeTab) == AllCaseStudies && v.limit == limit
  {
    View(AllTab, limit)
  }

  /** Clicking a tab button selects exactly that tab and keeps the limit. */
  function ClickTab(v: View, industry: string): (w: View)
    ensures w.activeTab == industry && w.limit == v.limit
  {
    v.(activeTab := industry)
  }

  /** The case studies shown in a view. */
  function Shown(v: View): (r: seq<CaseStudy>)
    ensures r <= Filtered(AllCaseStudies, v.activeTab)
  {
    Displayed(Filtered(AllCaseStudies, v.activeTab), v.limit)
  }
}
