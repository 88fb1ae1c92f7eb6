/** The views the dashboard derives from its task list, the search term and
    the status filter (frontend/src/pages/Dashboard.jsx): `filteredTasks`,
    `completedTasks`, `pendingTasks`, and the Total / Completed / Pending
    statistics. All of them are pure. */
module DashboardViews {
  import opened Seqs
  import opened Text
  import opened TaskModel

  /** The title contains the search term, ignoring (ASCII) case: the
      lowered term occurs at some position of the lowered title. */
  predicate MatchesSearch(t: Task, searchTerm: string): (r: bool)
    ensures r <==> exists k: nat :: OccursAt(Lower(t.title), Lower(searchTerm), k)
  {
    MatchesSearchIff(t, searchTerm);
    Includes(Lower(t.title), Lower(searchTerm))
  }

  lemma MatchesSearchIff(t: Task, searchTerm: string)
    ensures Includes(Lower(t.title), Lower(searchTerm))
      <==> exists k: nat :: OccursAt(Lower(t.title), Lower(searchTerm), k)
  {
    IncludesIffOccurs(Lower(t.title), Lower(searchTerm));
  }

  /** The test `filteredTasks` applies to each task: the search test, and
      under "completed" or "pending" the status test as well; any other
      status value, "all" included, applies the search test alone. */
  predicate Keeps(t: Task, searchTerm: string, filterStatus: string): (r: bool)
    ensures r <==> (MatchesSearch(t, searchTerm)
      && (filterStatus == "completed" ==> t.completed)
      && (filterStatus == "pending" ==> !t.completed))
  {
    if filterStatus == "completed" then MatchesSearch(t, searchTerm) && t.completed
    else if filterStatus == "pending" then MatchesSearch(t, searchTerm) && !t.completed
    else MatchesSearch(t, searchTerm)
  }

  predicate IsCompleted(t: Task) { t.completed }
  predicate IsPending(t: Task) { !t.completed }

  function FilteredTasks(tasks: seq<Task>, searchTerm: string, filterStatus: string): (r: seq<Task>)
    ensures IsSubsequence(r, tasks)
    ensures forall i :: 0 <= i < |r| ==> MatchesSearch(r[i], searchTerm)
    ensures filterStatus == "completed" ==> forall i :: 0 <= i < |r| ==> r[i].completed
    ensures filterStatus == "pending" ==> forall i :: 0 <= i < |r| ==> !r[i].completed
    ensures forall i :: 0 <= i < |tasks| && Keeps(tasks[i], searchTerm, filterStatus) ==> tasks[i] in r
    ensures forall i :: 0 <= i < |tasks| ==>
      multiset(r)[tasks[i]] == (if Keeps(tasks[i], searchTerm, filterStatus) then multiset(tasks)[tasks[i]] else 0)
  {
    var keep := (t: Task) => Keeps(t, searchTerm, filterStatus);
    FilterIsSubsequence(tasks, keep);
    FilterCounts(tasks, keep);
    Filter(tasks, keep)
  }

  /** `filtered.filter((t) => t.completed)`: the completed tasks of the
      list, in its order, each as often as it occurs there. */
  function CompletedTasks(filtered: seq<Task>): (r: seq<Task>)
    ensures IsSubsequence(r, filtered)
    ensures forall i :: 0 <= i < |r| ==> r[i].completed
    ensures forall i :: 0 <= i < |filtered| ==>
      multiset(r)[filtered[i]] == (if filtered[i].completed then multiset(filtered)[filtered[i]] else 0)
  {
    FilterIsSubsequence(filtered, IsCompleted);
    FilterCounts(filtered, IsCompleted);
    Filter(filtered, IsCompleted)
  }

  /** `filtered.filter((t) => !t.completed)`: the pending tasks of the list,
      in its order, each as often as it occurs there. */
  function PendingTasks(filtered: seq<Task>): (r: seq<Task>)
    ensures IsSubsequence(r, filtered)
    ensures forall i :: 0 <= i < |r| ==> !r[i].completed
    ensures forall i :: 0 <= i < |filtered| ==>
      multiset(r)[filtered[i]] == (if !filtered[i].completed then multiset(filtered)[filtered[i]] else 0)
  {
    FilterIsSubsequence(filtered, IsPending);
    FilterCounts(filtered, IsPending);
    Filter(filtered, IsPending)
  }

  /** The Completed card: the number of completed tasks of the whole list
      (not of the filtered view). It is zero exactly when no task is done,
      and the list's length exactly when every task is. */
  function CompletedStat(tasks: seq<Task>): (r: nat)
    ensures r == |CompletedTasks(tasks)|
    ensures r <= |tasks|
    ensures r == 0 <==> forall i :: 0 <= i < |tasks| ==> !tasks[i].completed
    ensures r == |tasks| <==> forall i :: 0 <= i < |tasks| ==> tasks[i].completed
  {
    FilterPartition(tasks, IsCompleted, IsPending);
    FilterNoneIff(tasks, IsCompleted);
    FilterNoneIff(tasks, IsPending);
    |Filter(tasks, IsCompleted)|
  }

  /** The Pending card: the number of tasks of the whole list not done. */
  function PendingStat(tasks: seq<Task>): (r: nat)
    ensures r == |PendingTasks(tasks)|
    ensures r <= |tasks|
    ensures r == 0 <==> forall i :: 0 <= i < |tasks| ==> tasks[i].completed
    ensures r == |tasks| <==> forall i :: 0 <= i < |tasks| ==> !tasks[i].completed
  {
    FilterPartition(tasks, IsCompleted, IsPending);
    FilterNoneIff(tasks, IsCompleted);
    FilterNoneIff(tasks, IsPending);
    |Filter(tasks, IsPending)|
  }

  /** The Total card: the length of the list, which the Completed and
      Pending cards add up to. */
  function TotalStat(tasks: seq<Task>): (r: nat)
    ensures r == |tasks|
    ensures r == CompletedStat(tasks) + PendingStat(tasks)
  {
    FilterPartition(tasks, IsCompleted, IsPending);
    |tasks|
  }

  /** `completedTasks` and `pendingTasks` split `filteredTasks`: every
      filtered task is in exactly one of them, each in filtered order. */
  lemma {:induction false} CompletedPendingPartition(tasks: seq<Task>, searchTerm: string, filterStatus: string)
    ensures var f := FilteredTasks(tasks, searchTerm, filterStatus);
      && |CompletedTasks(f)| + |PendingTasks(f)| == |f|
      && multiset(CompletedTasks(f)) + multiset(PendingTasks(f)) == multiset(f)
      && IsSubsequence(CompletedTasks(f), f) && IsSubsequence(PendingTasks(f), f)
  {
    var f := FilteredTasks(tasks, searchTerm, filterStatus);
    FilterPartition(f, IsCompleted, IsPending);
    FilterIsSubsequence(f, IsCompleted);
    FilterIsSubsequence(f, IsPending);
  }

  /** With an empty search term every task matches. */
  lemma EmptySearchMatches(t: Task)
    ensures MatchesSearch(t, "")
  {
    assert Lower("") == "";
    IncludesEmpty(Lower(t.title));
  }

  /** An empty search under "all" shows the whole list. */
  lemma {:induction false} EmptySearchShowsAll(tasks: seq<Task>)
    ensures FilteredTasks(tasks, "", "all") == tasks
  {
    forall t | t in tasks ensures Keeps(t, "", "all") {
      EmptySearchMatches(t);
    }
    FilterKeepsAll(tasks, (t: Task) => Keeps(t, "", "all"));
  }

  /** An empty search under "completed" shows exactly the completed tasks,
      in list order. */
  lemma {:induction false} EmptySearchCompleted(tasks: seq<Task>)
    ensures FilteredTasks(tasks, "", "completed") == Filter(tasks, IsCompleted)
  {
    forall t | t in tasks ensures Keeps(t, "", "completed") == IsCompleted(t) {
      EmptySearchMatches(t);
    }
    FilterCongruent(tasks, (t: Task) => Keeps(t, "", "completed"), IsCompleted);
  }

  /** A status other than "completed" and "pending" filters like "all". */
  lemma {:induction false} OtherStatusIsAll(tasks: seq<Task>, searchTerm: string, filterStatus: string)
    requires filterStatus != "completed" && filterStatus != "pending"
    ensures FilteredTasks(tasks, searchTerm, filterStatus) == FilteredTasks(tasks, searchTerm, "all")
  {
    FilterCongruent(tasks, (t: Task) => Keeps(t, searchTerm, filterStatus), (t: Task) => Keeps(t, searchTerm, "all"));
  }

  /** Two tasks, "Buy milk" done and "Write report" pending: under
      "completed" the search "milk" finds the first and "report" finds
      nothing. */
  lemma CompletedSearchScenario(milk: Task, report: Task)
    requires milk.title == "Buy milk" && milk.completed
    requires report.title == "Write report" && !report.completed
    ensures FilteredTasks([milk, report], "milk", "completed") == [milk]
    ensures FilteredTasks([milk, report], "report", "completed") == []
  {
    MilkMatches(milk);
    MilkMissesReport(milk);
    var keep := (t: Task) => Keeps(t, "milk", "completed");
    assert [milk, report][1..] == [report];
    assert Filter([milk, report], keep) == [milk] + Filter([report], keep);
  }

  lemma MilkMatches(milk: Task)
    requires milk.title == "Buy milk"
    ensures MatchesSearch(milk, "milk")
  {
    LowerFixesLowercase("milk");
    assert Lower("Buy milk")[4..8] == "milk";
    assert OccursAt(Lower(milk.title), "milk", 4);
    IncludesIffOccurs(Lower(milk.title), "milk");
  }

  lemma MilkMissesReport(milk: Task)
    requires milk.title == "Buy milk"
    ensures !MatchesSearch(milk, "report")
  {
    LowerFixesLowercase("report");
    assert forall i :: 0 <= i < |milk.title| ==> milk.title[i] != 'r' && milk.title[i] != 'R';
    IncludesNeedsFirstChar(Lower(milk.title), "report");
  }

  /** Lowering a string without upper-case ASCII letters changes nothing. */
  lemma LowerFixesLowercase(s: string)
    requires forall i :: 0 <= i < |s| ==> !('A' <= s[i] <= 'Z')
    ensures Lower(s) == s
  {
  }
}
