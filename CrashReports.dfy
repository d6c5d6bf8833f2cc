/** `UnityEngine.CrashReport`: the crash reports the engine has gathered, listed lazily and
    sorted by time. The static list is the field of a `CrashReportStore`. The native calls are
    inputs: the engine's report ids (`GetReports`), the time in ticks and text of a report
    (`GetReportData`) and whether the engine removed a report (`RemoveReport`). */
module CrashReports {
  import opened Wrappers

  /** One crash event: its native id, the time it happened at (in ticks), and its text. */
  class CrashReport {
    const id: string
    const time: int
    const text: string

    constructor (id: string, time: int, text: string)
      ensures this.id == id && this.time == time && this.text == text
    {
      this.id := id;
      this.time := time;
      this.text := text;
    }
  }

  /** The three-way comparison of two reports by time. */
  function Compare(c1: CrashReport, c2: CrashReport): (r: int)
    ensures r == 1 <==> c1.time > c2.time
    ensures r == -1 <==> c1.time < c2.time
    ensures r == 0 <==> c1.time == c2.time
  {
    if c1.time > c2.time then 1 else if c1.time < c2.time then -1 else 0
  }

  /** Swapping the operands negates the comparison. */
  lemma CompareAntisymmetric(c1: CrashReport, c2: CrashReport)
    ensures Compare(c1, c2) == -Compare(c2, c1)
  {
  }

  predicate Sorted(s: seq<CrashReport>) {
    forall i, j :: 0 <= i < j < |s| ==> Compare(s[i], s[j]) <= 0
  }

  /** No report appears twice (reports are compared by reference). */
  predicate Distinct(s: seq<CrashReport>) {
    forall i, j :: 0 <= i < j < |s| ==> s[i] != s[j]
  }

  /** The ids of the reports, in list order. */
  function Ids(s: seq<CrashReport>): (r: seq<string>)
    ensures |r| == |s|
  {
    if |s| == 0 then [] else [s[0].id] + Ids(s[1..])
  }

  /** The id at each position is the id of the report there. */
  lemma {:induction false} IdsAt(s: seq<CrashReport>)
    ensures forall k :: 0 <= k < |s| ==> Ids(s)[k] == s[k].id
  {
    if |s| != 0 {
      IdsAt(s[1..]);
      assert forall k :: 0 < k < |s| ==> s[1..][k - 1] == s[k];
    }
  }

  /** The head of a sorted list is no later than anything in its tail, which is sorted too. */
  lemma SortedTail(s: seq<CrashReport>)
    requires Sorted(s) && |s| > 0
    ensures Sorted(s[1..])
    ensures forall c :: c in s[1..] ==> Compare(s[0], c) <= 0
  {
    assert forall k :: 0 <= k < |s| - 1 ==> s[1..][k] == s[k + 1];
  }

  /** The head of a list without repeats is not in its tail, which has no repeats either. */
  lemma DistinctTail(s: seq<CrashReport>)
    requires Distinct(s) && |s| > 0
    ensures Distinct(s[1..])
    ensures s[0] !in s[1..]
  {
    assert forall k :: 0 <= k < |s| - 1 ==> s[1..][k] == s[k + 1];
  }

  /** In a list without repeats, an element is not in the part after it. */
  lemma DistinctAfter(s: seq<CrashReport>, i: int)
    requires Distinct(s) && 0 <= i < |s|
    ensures s[i] !in s[i + 1..]
  {
    var after := s[i + 1..];
    assert forall k :: 0 <= k < |after| ==> after[k] == s[i + 1 + k];
  }

  lemma SortedCons(a: CrashReport, r: seq<CrashReport>)
    requires Sorted(r)
    requires forall c :: c in r ==> Compare(a, c) <= 0
    ensures Sorted([a] + r)
  {
    assert forall k :: 0 < k < |r| + 1 ==> ([a] + r)[k] == r[k - 1];
  }

  lemma DistinctCons(a: CrashReport, r: seq<CrashReport>)
    requires Distinct(r) && a !in r
    ensures Distinct([a] + r)
  {
    assert forall k :: 0 < k < |r| + 1 ==> ([a] + r)[k] == r[k - 1];
  }

  /** Putting a report in front of a sorted list it is no later than keeps the list sorted. */
  lemma InsertAtHead(x: CrashReport, s: seq<CrashReport>)
    requires Sorted(s) && |s| > 0 && Compare(x, s[0]) <= 0
    ensures Sorted([x] + s)
    ensures Distinct(s) && x !in s ==> Distinct([x] + s)
  {
    assert s == [s[0]] + s[1..];
    SortedTail(s);
    SortedCons(x, s);
    if Distinct(s) && x !in s {
      DistinctCons(x, s);
    }
  }

  /** Keeping the head of a sorted list in front of the insertion into its tail keeps the
      list sorted and adds one occurrence of the report. */
  lemma InsertBehindHead(x: CrashReport, s: seq<CrashReport>, rest: seq<CrashReport>)
    requires Sorted(s) && |s| > 0 && Compare(x, s[0]) > 0
    requires Sorted(rest) && multiset(rest) == multiset(s[1..]) + multiset{x}
    ensures Sorted([s[0]] + rest)
    ensures multiset([s[0]] + rest) == multiset(s) + multiset{x}
  {
    assert s == [s[0]] + s[1..];
    SortedTail(s);
    forall c | c in rest ensures Compare(s[0], c) <= 0 {
      assert c in multiset(rest);
      assert c == x || c in s[1..];
    }
    SortedCons(s[0], rest);
  }

  /** ... and keeps a list free of repeats when the report was not in it. */
  lemma InsertBehindHeadDistinct(x: CrashReport, s: seq<CrashReport>, rest: seq<CrashReport>)
    requires |s| > 0 && Distinct(s) && x !in s
    requires multiset(rest) == multiset(s[1..]) + multiset{x}
    requires Distinct(rest)
    ensures Distinct([s[0]] + rest)
  {
    DistinctTail(s);
    assert s[0] != x;
    assert s[0] !in multiset(rest);
    DistinctCons(s[0], rest);
  }

  /** Inserts a report into a sorted list before the first later-or-equal report. */
  function Insert(x: CrashReport, s: seq<CrashReport>): (r: seq<CrashReport>)
    requires Sorted(s)
    ensures Sorted(r)
    ensures multiset(r) == multiset(s) + multiset{x}
    ensures Distinct(s) && x !in s ==> Distinct(r)
  {
    if |s| == 0 then [x]
    else if Compare(x, s[0]) <= 0 then
      InsertAtHead(x, s);
      [x] + s
    else
      SortedTail(s);
      var rest := Insert(x, s[1..]);
      InsertBehindHead(x, s, rest);
      if Distinct(s) && x !in s then
        DistinctTail(s);
        InsertBehindHeadDistinct(x, s, rest);
        [s[0]] + rest
      else
        [s[0]] + rest
  }

  /** The list sorted by time (an insertion sort: one of the orders the library sort may
      produce, since it does not promise stability). */
  function SortByTime(s: seq<CrashReport>): (r: seq<CrashReport>)
    ensures Sorted(r)
    ensures multiset(r) == multiset(s)
  {
    if |s| == 0 then []
    else
      assert s == [s[0]] + s[1..];
      Insert(s[0], SortByTime(s[1..]))
  }

  /** Sorting a list without repeats gives a list without repeats. */
  lemma {:induction false} SortKeepsDistinct(s: seq<CrashReport>)
    requires Distinct(s)
    ensures Distinct(SortByTime(s))
  {
    if |s| != 0 {
      DistinctTail(s);
      SortKeepsDistinct(s[1..]);
      var rest := SortByTime(s[1..]);
      assert s[0] !in multiset(s[1..]);
      assert s[0] !in rest;
    }
  }

  /** Sorting keeps the report ids, with their multiplicities. */
  lemma {:induction false} SortKeepsIds(s: seq<CrashReport>)
    ensures multiset(Ids(SortByTime(s))) == multiset(Ids(s))
  {
    PermutationKeepsIds(s, SortByTime(s));
  }

  /** Lists holding the same reports hold the same ids. */
  lemma {:induction false} PermutationKeepsIds(a: seq<CrashReport>, b: seq<CrashReport>)
    requires multiset(a) == multiset(b)
    ensures multiset(Ids(a)) == multiset(Ids(b))
    decreases |a|
  {
    if |a| != 0 {
      var x := a[0];
      assert x in multiset(b);
      var k :| 0 <= k < |b| && b[k] == x;
      var b' := b[..k] + b[k + 1..];
      MultisetWithoutAt(b, k);
      IdsOfHead(a);
      PermutationKeepsIds(a[1..], b');
      IdsWithoutAt(b, k);
    }
  }

  /** The ids of a non-empty list are its head's id and the ids of its tail. */
  lemma IdsOfHead(a: seq<CrashReport>)
    requires |a| > 0
    ensures multiset(Ids(a)) == multiset{a[0].id} + multiset(Ids(a[1..]))
    ensures multiset(a[1..]) == multiset(a) - multiset{a[0]}
  {
    assert Ids(a) == [a[0].id] + Ids(a[1..]);
    assert a == [a[0]] + a[1..];
  }

  /** Taking the report at `k` out of a list takes one occurrence of it out. */
  lemma MultisetWithoutAt(b: seq<CrashReport>, k: int)
    requires 0 <= k < |b|
    ensures multiset(b[..k] + b[k + 1..]) == multiset(b) - multiset{b[k]}
  {
    var front, back := b[..k], b[k + 1..];
    assert b == front + ([b[k]] + back);
    assert multiset(b) == multiset(front) + multiset{b[k]} + multiset(back);
    assert multiset(front + back) == multiset(front) + multiset(back);
  }

  /** Taking the report at `k` out of a list takes one occurrence of its id out of the ids. */
  lemma IdsWithoutAt(b: seq<CrashReport>, k: int)
    requires 0 <= k < |b|
    ensures multiset(Ids(b)) == multiset(Ids(b[..k] + b[k + 1..])) + multiset{b[k].id}
  {
    SplitAt(b, k);
    IdsAroundOne(b[..k], b[k], b[k + 1..]);
  }

  lemma SplitAt(b: seq<CrashReport>, k: int)
    requires 0 <= k < |b|
    ensures b == b[..k] + [b[k]] + b[k + 1..]
  {
  }

  lemma IdsAroundOne(front: seq<CrashReport>, x: CrashReport, back: seq<CrashReport>)
    ensures multiset(Ids(front + [x] + back)) == multiset(Ids(front + back)) + multiset{x.id}
  {
    IdsOfConcat(front + [x], back);
    IdsOfConcat(front, [x]);
    IdsOfConcat(front, back);
    assert Ids([x]) == [x.id];
  }

  lemma IdsOfConcat(a: seq<CrashReport>, b: seq<CrashReport>)
    ensures Ids(a + b) == Ids(a) + Ids(b)
  {
    IdsAt(a + b);
    IdsAt(a);
    IdsAt(b);
    assert forall k :: 0 <= k < |a + b| ==> Ids(a + b)[k] == (Ids(a) + Ids(b))[k];
  }

  /** Dropping the head of a list when it is the report looked for. */
  lemma RemoveFirstAtHead(s: seq<CrashReport>, x: CrashReport)
    requires |s| > 0 && s[0] == x
    ensures forall i :: 0 <= i < |s| - 1 ==> s[1..][i] in s
    ensures multiset(s[1..]) == multiset(s) - multiset{x}
    ensures Distinct(s) ==> Distinct(s[1..]) && x !in s[1..] && forall i :: 0 <= i < |s| && s[i] != x ==> s[i] in s[1..]
    ensures Sorted(s) ==> Sorted(s[1..])
  {
    assert s == [s[0]] + s[1..];
    assert forall i :: 0 < i < |s| ==> s[i] == s[1..][i - 1];
    if Sorted(s) {
      SortedTail(s);
    }
    if Distinct(s) {
      DistinctTail(s);
    }
  }

  /** Keeping a head that is not the report looked for in front of the removal from the tail:
      one occurrence goes if there is one, and nothing else comes in. */
  lemma RemoveFirstBehindHead(s: seq<CrashReport>, x: CrashReport, rest: seq<CrashReport>)
    requires |s| > 0 && s[0] != x
    requires x !in s[1..] ==> rest == s[1..]
    requires x in s[1..] ==> |rest| == |s| - 2 && multiset(rest) == multiset(s[1..]) - multiset{x}
    requires forall i :: 0 <= i < |rest| ==> rest[i] in s[1..]
    ensures x !in s ==> [s[0]] + rest == s
    ensures x in s ==> |[s[0]] + rest| == |s| - 1 && multiset([s[0]] + rest) == multiset(s) - multiset{x}
    ensures forall i :: 0 <= i < |[s[0]] + rest| ==> ([s[0]] + rest)[i] in s
  {
    assert s == [s[0]] + s[1..];
    assert forall i :: 0 < i < |[s[0]] + rest| ==> ([s[0]] + rest)[i] == rest[i - 1];
  }

  /** ... which keeps a list free of repeats, with every other report still in it ... */
  lemma RemoveFirstBehindHeadDistinct(s: seq<CrashReport>, x: CrashReport, rest: seq<CrashReport>)
    requires |s| > 0 && s[0] != x && Distinct(s)
    requires forall i :: 0 <= i < |rest| ==> rest[i] in s[1..]
    requires Distinct(rest) && x !in rest && forall i :: 0 <= i < |s| - 1 && s[1..][i] != x ==> s[1..][i] in rest
    ensures Distinct([s[0]] + rest) && x !in [s[0]] + rest
    ensures forall i :: 0 <= i < |s| && s[i] != x ==> s[i] in [s[0]] + rest
  {
    assert forall i :: 0 < i < |s| ==> s[i] == s[1..][i - 1];
    DistinctTail(s);
    forall c | c in rest ensures c != s[0] {
      var i :| 0 <= i < |rest| && rest[i] == c;
      assert c in s[1..];
    }
    DistinctCons(s[0], rest);
  }

  /** ... and keeps a sorted list sorted. */
  lemma RemoveFirstBehindHeadSorted(s: seq<CrashReport>, x: CrashReport, rest: seq<CrashReport>)
    requires |s| > 0 && Sorted(s) && Sorted(rest)
    requires forall i :: 0 <= i < |rest| ==> rest[i] in s[1..]
    ensures Sorted([s[0]] + rest)
  {
    SortedTail(s);
    forall c | c in rest ensures Compare(s[0], c) <= 0 {
      var i :| 0 <= i < |rest| && rest[i] == c;
      assert c in s[1..];
    }
    SortedCons(s[0], rest);
  }

  /** The list's `Remove(item)`: drops the first occurrence of the report, if any. */
  function RemoveFirst(s: seq<CrashReport>, x: CrashReport): (r: seq<CrashReport>)
    ensures x !in s ==> r == s
    ensures x in s ==> |r| == |s| - 1 && multiset(r) == multiset(s) - multiset{x}
    ensures forall i :: 0 <= i < |r| ==> r[i] in s
    ensures Distinct(s) ==> Distinct(r) && x !in r && forall i :: 0 <= i < |s| && s[i] != x ==> s[i] in r
    ensures Sorted(s) ==> Sorted(r)
  {
    if |s| == 0 then []
    else if s[0] == x then
      RemoveFirstAtHead(s, x);
      s[1..]
    else
      var rest := RemoveFirst(s[1..], x);
      RemoveFirstBehindHead(s, x, rest);
      assert Distinct(s) ==> Distinct([s[0]] + rest) && x !in [s[0]] + rest
                             && forall i :: 0 <= i < |s| && s[i] != x ==> s[i] in [s[0]] + rest by {
        if Distinct(s) {
          DistinctTail(s);
          RemoveFirstBehindHeadDistinct(s, x, rest);
        }
      }
      assert Sorted(s) ==> Sorted([s[0]] + rest) by {
        if Sorted(s) {
          SortedTail(s);
          RemoveFirstBehindHeadSorted(s, x, rest);
        }
      }
      [s[0]] + rest
  }

  lemma DistinctSnoc(s: seq<CrashReport>, x: CrashReport)
    requires Distinct(s) && x !in s
    ensures Distinct(s + [x])
  {
  }

  /** Sorting the reports built one per native id, in id order, gives a populated list. */
  lemma SortedPopulation(built: seq<CrashReport>, nativeIds: seq<string>, reportData: string -> (int, string))
    requires |built| == |nativeIds| && Distinct(built)
    requires forall k :: 0 <= k < |built| ==>
      built[k].id == nativeIds[k] && built[k].time == reportData(nativeIds[k]).0 && built[k].text == reportData(nativeIds[k]).1
    ensures PopulatedFrom(SortByTime(built), nativeIds, reportData)
    ensures forall c :: c in SortByTime(built) ==> c in built
  {
    IdsAt(built);
    assert Ids(built) == nativeIds;
    var sorted := SortByTime(built);
    SortKeepsIds(built);
    SortKeepsDistinct(built);
    forall i | 0 <= i < |sorted|
      ensures sorted[i].time == reportData(sorted[i].id).0 && sorted[i].text == reportData(sorted[i].id).1
    {
      assert sorted[i] in multiset(built);
    }
    forall c | c in sorted ensures c in built {
      assert c in multiset(sorted);
    }
  }

  /** A list as `PopulateReports` builds it: sorted, each report once, one report per native
      id, and each report carrying the data the engine gives for its id. */
  ghost predicate PopulatedFrom(list: seq<CrashReport>, nativeIds: seq<string>, reportData: string -> (int, string)) {
    && Sorted(list) && Distinct(list)
    && multiset(Ids(list)) == multiset(nativeIds)
    && forall i :: 0 <= i < |list| ==> list[i].time == reportData(list[i].id).0 && list[i].text == reportData(list[i].id).1
  }

  /** The list after population: an existing list is kept, a missing one is built. */
  ghost predicate PopulationOf(before: Option<seq<CrashReport>>, after: Option<seq<CrashReport>>,
                               nativeIds: seq<string>, reportData: string -> (int, string)) {
    && after.Some?
    && (before.Some? ==> after == before)
    && (before.None? ==> PopulatedFrom(after.value, nativeIds, reportData))
  }

  /** One step of `RemoveAll`: once the report at `i` has been offered for removal, the list
      holds the populated reports that are still ahead or that the engine did not remove. */
  lemma RemoveStepKeepsLeft(list: seq<CrashReport>, next: seq<CrashReport>, populated: seq<CrashReport>, i: int,
                            removeReport: string -> bool)
    requires Distinct(populated) && 0 <= i < |populated|
    requires forall c :: c in list <==> c in populated && (c in populated[i..] || !removeReport(c.id))
    requires !removeReport(populated[i].id) ==> next == list
    requires removeReport(populated[i].id) ==> forall c :: c in next <==> c in list && c != populated[i]
    ensures forall c :: c in next <==> c in populated && (c in populated[i + 1..] || !removeReport(c.id))
  {
    assert populated[i..] == [populated[i]] + populated[i + 1..];
    DistinctAfter(populated, i);
  }

  /** The report list shared by all reports (`internalReports`), null until first populated. */
  class CrashReportStore {
    var internalReports: Option<seq<CrashReport>>

    ghost predicate Valid()
      reads this
    {
      internalReports.Some? ==> Sorted(internalReports.value) && Distinct(internalReports.value)
    }

    constructor ()
      ensures Valid() && internalReports.None?
    {
      internalReports := None;
    }

    /** Builds the list from the engine's reports the first time; later calls leave it alone. */
    method PopulateReports(nativeIds: seq<string>, reportData: string -> (int, string))
      requires Valid()
      modifies this
      ensures Valid()
      ensures PopulationOf(old(internalReports), internalReports, nativeIds, reportData)
      ensures old(internalReports).None? ==> forall c :: c in internalReports.value ==> fresh(c)
    {
      if internalReports.None? {
        var reports := nativeIds;
        var built: seq<CrashReport> := [];
        for i := 0 to |reports|
          invariant |built| == i
          invariant forall k :: 0 <= k < i ==>
            built[k].id == reports[k] && built[k].time == reportData(reports[k]).0 && built[k].text == reportData(reports[k]).1
          invariant forall k :: 0 <= k < i ==> fresh(built[k])
          invariant Distinct(built)
        {
          var text := reports[i];
          var data := reportData(text);
          var report := new CrashReport(text, data.0, data.1);
          assert forall k :: 0 <= k < |built| ==> built[k] != report;
          DistinctSnoc(built, report);
          built := built + [report];
        }
        SortedPopulation(built, reports, reportData);
        var sorted := SortByTime(built);
        internalReports := Some(sorted);
      }
    }

    /** `reports`: populates, then returns the list as a new array, which later changes to the
      list do not reach. */
    method Reports(nativeIds: seq<string>, reportData: string -> (int, string)) returns (result: array<CrashReport>)
      requires Valid()
      modifies this
      ensures Valid()
      ensures PopulationOf(old(internalReports), internalReports, nativeIds, reportData)
      ensures fresh(result)
      ensures result[..] == internalReports.value
    {
      PopulateReports(nativeIds, reportData);
      var list := internalReports.value;
      result := new CrashReport[|list|](i requires 0 <= i < |list| => list[i]);
    }

    /** `lastReport`: populates, then gives the last report, which is the latest one, or null
      when there is none. */
    method LastReport(nativeIds: seq<string>, reportData: string -> (int, string)) returns (r: Option<CrashReport>)
      requires Valid()
      modifies this
      ensures Valid()
      ensures PopulationOf(old(internalReports), internalReports, nativeIds, reportData)
      ensures r.None? <==> internalReports.value == []
      ensures r.Some? ==> r.value == internalReports.value[|internalReports.value| - 1]
      ensures r.Some? ==> forall c :: c in internalReports.value ==> c.time <= r.value.time
    {
      PopulateReports(nativeIds, reportData);
      var list := internalReports.value;
      if |list| > 0 {
        return Some(list[|list| - 1]);
      }
      return None;
    }

    /** `report.Remove()`: asks the engine to remove the report and, only if it did, drops the
      report from the list. A report exists only once the list has been populated (its
      constructor is private to population), so the list is there. */
    method Remove(report: CrashReport, removeReport: string -> bool)
      requires Valid() && internalReports.Some?
      modifies this
      ensures Valid() && internalReports.Some?
      ensures !removeReport(report.id) ==> internalReports == old(internalReports)
      ensures removeReport(report.id) ==> internalReports.value == RemoveFirst(old(internalReports.value), report)
      ensures removeReport(report.id) ==>
        forall c :: c in internalReports.value <==> c in old(internalReports.value) && c != report
    {
      if removeReport(report.id) {
        internalReports := Some(RemoveFirst(internalReports.value, report));
      }
    }

    /** `RemoveAll`: removes every report of a snapshot of the list; afterwards exactly the
      reports the engine did not remove are left. `populated` is the list the snapshot was
      taken of. */
    method RemoveAll(nativeIds: seq<string>, reportData: string -> (int, string), removeReport: string -> bool)
      returns (ghost populated: seq<CrashReport>)
      requires Valid()
      modifies this
      ensures Valid()
      ensures PopulationOf(old(internalReports), Some(populated), nativeIds, reportData)
      ensures internalReports.Some?
      ensures forall c :: c in internalReports.value <==> c in populated && !removeReport(c.id)
    {
      var reports := Reports(nativeIds, reportData);
      populated := reports[..];
      for i := 0 to reports.Length
        invariant Valid() && internalReports.Some?
        invariant reports[..] == populated && Distinct(populated)
        invariant forall c :: c in internalReports.value <==> c in populated && (c in populated[i..] || !removeReport(c.id))
      {
        ghost var before := internalReports.value;
        Remove(reports[i], removeReport);
        RemoveStepKeepsLeft(before, internalReports.value, populated, i, removeReport);
      }
    }
  }
}
