/**
 * src/pages/home/Home.jsx: the dashboard's home page. Each chart is a histogram built by
 * reducing a list into a counting dictionary whose keys keep their insertion order:
 * project statuses, task priorities, and project creation months, the last with its
 * labels sorted chronologically. The page also lists the first five projects and counts
 * the completed ones.
 */
module HomePage {
  import opened Wrappers
  import opened Lists
  import opened Sorting
  import opened Entities
  import opened Metrics

  /** No value occurs twice. */
  predicate NoDuplicates<K(==)>(xs: seq<K>) {
    forall i, j :: 0 <= i < j < |xs| ==> xs[i] != xs[j]
  }

  /**
   * The keys of the counting dictionary in insertion order: each distinct value of `xs`
   * once, where it first occurs.
   */
  function Distinct<K(==,!new)>(xs: seq<K>): (r: seq<K>)
    ensures forall x :: x in r <==> x in xs
    ensures NoDuplicates(r)
  {
    if xs == [] then []
    else
      var d := Distinct(xs[..|xs| - 1]);
      var x := xs[|xs| - 1];
      assert forall y :: y in xs <==> y in xs[..|xs| - 1] || y == x by {
        assert xs == xs[..|xs| - 1] + [x];
      }
      if x in d then d else d + [x]
  }

  /** The position where x first occurs. */
  function FirstIndex<K(==)>(xs: seq<K>, x: K): (r: nat)
    requires x in xs
    ensures r < |xs| && xs[r] == x && x !in xs[..r]
  {
    if xs[0] == x then 0
    else
      var r := FirstIndex(xs[1..], x);
      assert xs[..r + 1] == [xs[0]] + xs[1..][..r];
      r + 1
  }

  lemma {:induction false} FirstIndexAppend<K>(xs: seq<K>, y: K, x: K)
    requires x in xs
    ensures FirstIndex(xs + [y], x) == FirstIndex(xs, x)
  {
    if xs[0] != x {
      assert (xs + [y])[1..] == xs[1..] + [y];
      FirstIndexAppend(xs[1..], y, x);
    }
  }

  /** Chart labels come in the order in which their values first occur in the list. */
  lemma {:induction false} DistinctInFirstOccurrenceOrder<K(!new)>(xs: seq<K>, i: nat, j: nat)
    requires i < j < |Distinct(xs)|
    ensures FirstIndex(xs, Distinct(xs)[i]) < FirstIndex(xs, Distinct(xs)[j])
  {
    var init, x := xs[..|xs| - 1], xs[|xs| - 1];
    assert xs == init + [x];
    var d := Distinct(init);
    if j < |d| {
      DistinctInFirstOccurrenceOrder(init, i, j);
      FirstIndexAppend(init, x, d[i]);
      FirstIndexAppend(init, x, d[j]);
    } else {
      assert x !in init;
      FirstIndexAppend(init, x, d[i]);
    }
  }

  /** The chart data: for each label, how often it occurs in the list. */
  function Counts<K(==)>(labels: seq<K>, xs: seq<K>): (r: seq<nat>)
    ensures |r| == |labels|
    ensures forall i :: 0 <= i < |labels| ==> r[i] == multiset(xs)[labels[i]]
  {
    seq(|labels|, i requires 0 <= i < |labels| => multiset(xs)[labels[i]])
  }

  function Sum(s: seq<nat>): nat {
    if s == [] then 0 else Sum(s[..|s| - 1]) + s[|s| - 1]
  }

  lemma {:induction false} SumUpdate(s: seq<nat>, p: nat, v: nat)
    requires p < |s|
    ensures Sum(s[p := v]) + s[p] == Sum(s) + v
  {
    var t := s[p := v];
    if p < |s| - 1 {
      assert t[..|t| - 1] == s[..|s| - 1][p := v];
      SumUpdate(s[..|s| - 1], p, v);
    } else {
      assert t[..|t| - 1] == s[..|s| - 1];
    }
  }

  /** Appending an element already labelled adds one to its label's count. */
  lemma CountsAppendSeen<K>(d: seq<K>, init: seq<K>, x: K, p: nat)
    requires p < |d| && d[p] == x && NoDuplicates(d)
    ensures Counts(d, init + [x]) == Counts(d, init)[p := Counts(d, init)[p] + 1]
  {
    assert multiset(init + [x]) == multiset(init) + multiset{x};
  }

  /** Appending an unlabelled element adds its label with count one. */
  lemma CountsAppendUnseen<K>(d: seq<K>, init: seq<K>, x: K)
    requires x !in d && x !in init
    ensures Counts(d + [x], init + [x]) == Counts(d, init) + [1]
  {
    assert multiset(init + [x]) == multiset(init) + multiset{x};
  }

  /** Appending an element to the list extends the labels only when it is new. */
  lemma DistinctSnoc<K(!new)>(init: seq<K>, x: K)
    ensures Distinct(init + [x]) == if x in Distinct(init) then Distinct(init) else Distinct(init) + [x]
  {
    assert (init + [x])[..|init + [x]| - 1] == init;
  }

  /** Counting one more occurrence of a labelled element adds one to the total. */
  lemma SumAppendSeen<K>(d: seq<K>, init: seq<K>, x: K, p: nat)
    requires p < |d| && d[p] == x && NoDuplicates(d)
    ensures Sum(Counts(d, init + [x])) == Sum(Counts(d, init)) + 1
  {
    var before := Counts(d, init);
    CountsAppendSeen(d, init, x, p);
    SumUpdate(before, p, before[p] + 1);
  }

  /** Counting a new element under a new label adds one to the total. */
  lemma SumAppendUnseen<K>(d: seq<K>, init: seq<K>, x: K)
    requires x !in d && x !in init
    ensures Sum(Counts(d + [x], init + [x])) == Sum(Counts(d, init)) + 1
  {
    var before := Counts(d, init);
    CountsAppendUnseen(d, init, x);
    assert (before + [1])[..|before|] == before;
  }

  /** The histogram accounts for every element exactly once: its values sum to the list's length. */
  lemma {:induction false} CountsSumToLength<K(!new)>(xs: seq<K>)
    ensures Sum(Counts(Distinct(xs), xs)) == |xs|
  {
    if xs != [] {
      var init, x := xs[..|xs| - 1], xs[|xs| - 1];
      assert xs == init + [x];
      var d := Distinct(init);
      CountsSumToLength(init);
      DistinctSnoc(init, x);
      if x in d {
        var p :| 0 <= p < |d| && d[p] == x;
        SumAppendSeen(d, init, x, p);
      } else {
        SumAppendUnseen(d, init, x);
      }
    }
  }

  /**
   * The counting reduce: one pass over the keys, adding each unseen key to the dictionary
   * (after the existing ones) with count 1 and incrementing a seen key. Returns
   * `Object.keys` and `Object.values` of the dictionary.
   */
  method CountBy<K(==,!new)>(keys: seq<K>) returns (labels: seq<K>, data: seq<nat>)
    ensures labels == Distinct(keys)
    ensures data == Counts(labels, keys)
    ensures NoDuplicates(labels) && (forall k :: k in labels <==> k in keys)
    ensures Sum(data) == |keys|
  {
    labels := [];
    var acc: map<K, nat> := map[];
    var i := 0;
    while i < |keys|
      invariant 0 <= i <= |keys|
      invariant labels == Distinct(keys[..i])
      invariant forall k :: k in acc <==> k in keys[..i]
      invariant forall k :: k in acc ==> acc[k] == multiset(keys[..i])[k]
    {
      var key := keys[i];
      assert keys[..i + 1] == keys[..i] + [key];
      assert keys[..i + 1][..i] == keys[..i];
      if key !in acc {
        labels := labels + [key];
      }
      acc := acc[key := (if key in acc then acc[key] else 0) + 1];
      i := i + 1;
    }
    assert keys[..i] == keys;
    data := seq(|labels|, j requires 0 <= j < |labels| => acc[labels[j]]);
    CountsSumToLength(keys);
  }

  function Statuses(projects: seq<Project>): (r: seq<string>)
    ensures |r| == |projects| && forall i :: 0 <= i < |projects| ==> r[i] == projects[i].status
  {
    seq(|projects|, i requires 0 <= i < |projects| => projects[i].status)
  }

  function Priorities(tasks: seq<Task>): (r: seq<string>)
    ensures |r| == |tasks| && forall i :: 0 <= i < |tasks| ==> r[i] == tasks[i].priority
  {
    seq(|tasks|, i requires 0 <= i < |tasks| => tasks[i].priority)
  }

  function CreationMonths(projects: seq<Project>): (r: seq<MonthYear>)
    ensures |r| == |projects| && forall i :: 0 <= i < |projects| ==> r[i] == projects[i].createdAt
  {
    seq(|projects|, i requires 0 <= i < |projects| => projects[i].createdAt)
  }

  /** Chronological order on (month, year): the comparator's `new Date(year, month - 1)` difference. */
  predicate MonthLess(a: MonthYear, b: MonthYear) {
    a.year < b.year || (a.year == b.year && a.month < b.month)
  }

  lemma MonthLessIsStrictTotalOrder()
    ensures StrictTotalOrder(MonthLess)
  {
  }

  function Digit(d: nat): (c: char)
    requires d < 10
    ensures '0' <= c <= '9'
  {
    (48 + d) as char
  }

  /** `String(n)` for a non-negative integer: its decimal digits, most significant first. */
  function Decimal(n: nat): (r: string)
    ensures |r| >= 1 && (n >= 10 ==> |r| >= 2)
    ensures forall i :: 0 <= i < |r| ==> '0' <= r[i] <= '9'
  {
    if n < 10 then [Digit(n)] else Decimal(n / 10) + [Digit(n % 10)]
  }

  lemma {:induction false} DecimalInjective(a: nat, b: nat)
    requires Decimal(a) == Decimal(b)
    ensures a == b
  {
    if a >= 10 && b >= 10 {
      var da, db := Decimal(a), Decimal(b);
      assert Digit(a % 10) == da[|da| - 1] == db[|db| - 1] == Digit(b % 10);
      assert da[..|da| - 1] == Decimal(a / 10);
      assert db[..|db| - 1] == Decimal(b / 10);
      DecimalInjective(a / 10, b / 10);
    }
  }

  /** The trend's dictionary key `${month}/${year}`. */
  function MonthLabel(m: MonthYear): string
    requires m.month >= 0 && m.year >= 0
  {
    Decimal(m.month) + "/" + Decimal(m.year)
  }

  /** In a key, the month's digits come first and the first '/' follows them. */
  lemma SlashAfterMonth(m: MonthYear)
    requires m.month >= 0 && m.year >= 0
    ensures MonthLabel(m)[|Decimal(m.month)|] == '/'
    ensures forall i :: 0 <= i < |Decimal(m.month)| ==> MonthLabel(m)[i] != '/'
  {
    var d := Decimal(m.month);
    forall i | 0 <= i < |d| ensures MonthLabel(m)[i] != '/' {
      assert MonthLabel(m)[i] == d[i];
    }
  }

  /**
   * Distinct months have distinct keys, so counting by key is counting by (month, year):
   * the trend is modelled on `MonthYear` values directly.
   */
  lemma MonthLabelInjective(a: MonthYear, b: MonthYear)
    requires a.month >= 0 && a.year >= 0 && b.month >= 0 && b.year >= 0
    requires MonthLabel(a) == MonthLabel(b)
    ensures a == b
  {
    var la, lb := |Decimal(a.month)|, |Decimal(b.month)|;
    var sa, sb := MonthLabel(a), MonthLabel(b);
    SlashAfterMonth(a);
    SlashAfterMonth(b);
    if la == lb {
      assert sa[..la] == Decimal(a.month) && sb[..la] == Decimal(b.month);
      assert sa[la + 1..] == Decimal(a.year) && sb[la + 1..] == Decimal(b.year);
      DecimalInjective(a.month, b.month);
      DecimalInjective(a.year, b.year);
    }
  }

  function Self(m: MonthYear): MonthYear { m }

  /** `.sort(...)` of the month keys. */
  function Chronological(months: seq<MonthYear>): seq<MonthYear> {
    SortBy(months, Self, MonthLess)
  }

  /** Sorting distinct months chronologically leaves them strictly increasing and keeps them all. */
  lemma ChronologicalIsStrictlyIncreasing(months: seq<MonthYear>)
    requires NoDuplicates(months)
    ensures forall m :: m in Chronological(months) <==> m in months
    ensures forall i, j :: 0 <= i < j < |Chronological(months)| ==>
              MonthLess(Chronological(months)[i], Chronological(months)[j])
  {
    var s := Chronological(months);
    MonthLessIsStrictTotalOrder();
    SortBySorted(months, Self, MonthLess);
    assert multiset(s) == multiset(months);
    forall m ensures m in s <==> m in months {
      assert m in s <==> m in multiset(s);
      assert m in months <==> m in multiset(months);
    }
    forall i, j | 0 <= i < j < |s| ensures s[i] != s[j] {
      MultiplicityOfDistinct(months, s[i]);
      if s[i] == s[j] {
        TwoOccurrences(s, i, j);
      }
    }
  }

  lemma TwoOccurrences<K>(xs: seq<K>, i: nat, j: nat)
    requires i < j < |xs| && xs[i] == xs[j]
    ensures multiset(xs)[xs[i]] >= 2
  {
    assert xs == xs[..j] + [xs[j]] + xs[j + 1..];
    assert xs[i] in xs[..j];
  }

  lemma {:induction false} MultiplicityOfDistinct<K>(xs: seq<K>, x: K)
    requires NoDuplicates(xs)
    ensures multiset(xs)[x] <= 1
  {
    if xs != [] {
      assert xs == [xs[0]] + xs[1..];
      MultiplicityOfDistinct(xs[1..], x);
      if xs[0] == x {
        assert x !in xs[1..];
      }
    }
  }

  /** A chart: the labels and, aligned with them, the values. */
  datatype Chart<K> = Chart(labels: seq<K>, data: seq<nat>)

  /** `projects.slice(0, 5)`. */
  function Recent(projects: seq<Project>): (r: seq<Project>)
    ensures |r| == if |projects| < 5 then |projects| else 5
    ensures forall i :: 0 <= i < |r| ==> r[i] == projects[i]
  {
    if |projects| < 5 then projects else projects[..5]
  }

  /** The number of projects whose status is exactly "Completed". */
  function CompletedCount(projects: seq<Project>): (n: nat)
    ensures n == multiset(Statuses(projects))[Completed]
    ensures n <= |projects|
  {
    var done := Filter(projects, (p: Project) => p.status == Completed);
    CompletedCountIsStatusCount(projects);
    |done|
  }

  lemma {:induction false} CompletedCountIsStatusCount(projects: seq<Project>)
    ensures |Filter(projects, (p: Project) => p.status == Completed)| == multiset(Statuses(projects))[Completed]
    ensures |Filter(projects, (p: Project) => p.status == Completed)| <= |projects|
  {
    if projects != [] {
      CompletedCountIsStatusCount(projects[1..]);
      assert Statuses(projects) == [projects[0].status] + Statuses(projects[1..]);
    }
  }

  /** The completed count equals the "Completed" slice of the status chart, when that slice exists. */
  lemma CompletedCountMatchesStatusChart(projects: seq<Project>, i: nat)
    requires i < |Distinct(Statuses(projects))| && Distinct(Statuses(projects))[i] == Completed
    ensures CompletedCount(projects) == Counts(Distinct(Statuses(projects)), Statuses(projects))[i]
  {
  }

  class Home {
    var isLoading: bool
    var projects: seq<Project>
    var projectData: Option<Chart<string>>
    var taskData: Option<Chart<string>>
    var projectTrend: Option<Chart<MonthYear>>

    constructor()
      ensures isLoading && projects == [] && projectData == None && taskData == None && projectTrend == None
    {
      isLoading := true;
      projects := [];
      projectData := None;
      taskData := None;
      projectTrend := None;
    }

    /** `processProjectData`: the status histogram. */
    method ProcessProjectData(ps: seq<Project>)
      modifies this
      ensures projectData == Some(Chart(Distinct(Statuses(ps)), Counts(Distinct(Statuses(ps)), Statuses(ps))))
      ensures Sum(projectData.value.data) == |ps|
      ensures projects == old(projects) && taskData == old(taskData) && projectTrend == old(projectTrend)
      ensures isLoading == old(isLoading)
    {
      var labels, data := CountBy(Statuses(ps));
      projectData := Some(Chart(labels, data));
    }

    /** `processTaskData`: the priority histogram. */
    method ProcessTaskData(ts: seq<Task>)
      modifies this
      ensures taskData == Some(Chart(Distinct(Priorities(ts)), Counts(Distinct(Priorities(ts)), Priorities(ts))))
      ensures Sum(taskData.value.data) == |ts|
      ensures projects == old(projects) && projectData == old(projectData) && projectTrend == old(projectTrend)
      ensures isLoading == old(isLoading)
    {
      var labels, data := CountBy(Priorities(ts));
      taskData := Some(Chart(labels, data));
    }

    /** `processProjectTrend`: the creation-month histogram with its labels in chronological order. */
    method ProcessProjectTrend(ps: seq<Project>)
      modifies this
      ensures var months := CreationMonths(ps);
              var sorted := Chronological(Distinct(months));
              projectTrend == Some(Chart(sorted, Counts(sorted, months)))
      ensures forall m :: m in projectTrend.value.labels <==> m in CreationMonths(ps)
      ensures forall i, j :: 0 <= i < j < |projectTrend.value.labels| ==>
                MonthLess(projectTrend.value.labels[i], projectTrend.value.labels[j])
      ensures projects == old(projects) && projectData == old(projectData) && taskData == old(taskData)
      ensures isLoading == old(isLoading)
    {
      var months := CreationMonths(ps);
      var labels, _ := CountBy(months);
      ChronologicalIsStrictlyIncreasing(labels);
      var sorted := Chronological(labels);
      projectTrend := Some(Chart(sorted, Counts(sorted, months)));
    }

    /**
     * `fetchData` with the two fetches' results: only when both arrive are the projects
     * stored and the charts built; loading ends either way.
     */
    method FetchData(fetchedProjects: Option<seq<Project>>, fetchedTasks: Option<seq<Task>>)
      modifies this
      ensures !isLoading
      ensures fetchedProjects.Some? && fetchedTasks.Some? ==>
                var ps, ts := fetchedProjects.value, fetchedTasks.value;
                var months := CreationMonths(ps);
                && projects == ps
                && projectData == Some(Chart(Distinct(Statuses(ps)), Counts(Distinct(Statuses(ps)), Statuses(ps))))
                && Sum(projectData.value.data) == |ps|
                && taskData == Some(Chart(Distinct(Priorities(ts)), Counts(Distinct(Priorities(ts)), Priorities(ts))))
                && Sum(taskData.value.data) == |ts|
                && projectTrend == Some(Chart(Chronological(Distinct(months)), Counts(Chronological(Distinct(months)), months)))
      ensures fetchedProjects.None? || fetchedTasks.None? ==>
                projects == old(projects) && projectData == old(projectData)
                && taskData == old(taskData) && projectTrend == old(projectTrend)
    {
      if fetchedProjects.Some? && fetchedTasks.Some? {
        projects := fetchedProjects.value;
        ProcessProjectData(fetchedProjects.value);
        ProcessTaskData(fetchedTasks.value);
        ProcessProjectTrend(fetchedProjects.value);
      }
      isLoading := false;
    }
  }
}
