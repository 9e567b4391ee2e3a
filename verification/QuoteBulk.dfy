/** `bulkReplace` is exact, safe and, with one known exception, idempotent. */
module QuoteBulk {
  import opened Wrappers
  import opened Sequences
  import opened Sorting
  import opened Quotes

  // ---- a table of lines is a map from ids to lines ----

  ghost predicate Distinct(lines: seq<Line>) {
    forall i, j :: 0 <= i < j < |lines| ==> lines[i].id != lines[j].id
  }

  lemma {:induction false} LineAtMember(lines: seq<Line>, k: nat)
    requires Distinct(lines) && k < |lines|
    ensures IndexWhere(LineIs(lines[k].id), lines) == k && LineAt(lines, lines[k].id) == Some(lines[k])
  {
    IndexWhereUnique(LineIs(lines[k].id), lines, k);
  }

  lemma {:induction false} WriteElsewhere(lines: seq<Line>, k: nat, l: Line, p: Line -> bool)
    requires k < |lines| && !p(lines[k]) && !p(l)
    ensures Keep(p, lines[k := l]) == Keep(p, lines)
  {
    assert lines == lines[..k] + ([lines[k]] + lines[k + 1..]);
    assert lines[k := l] == lines[..k] + ([l] + lines[k + 1..]);
    KeepAppend(p, lines[..k], [lines[k]] + lines[k + 1..]);
    KeepAppend(p, lines[..k], [l] + lines[k + 1..]);
    KeepCons(p, lines[k], lines[k + 1..]);
    KeepCons(p, l, lines[k + 1..]);
  }

  /** Overwriting a row with one of the same id. */
  lemma {:induction false} WriteLine(lines: seq<Line>, k: nat, l: Line)
    requires Distinct(lines) && k < |lines| && l.id == lines[k].id
    ensures Distinct(lines[k := l])
    ensures forall x :: LineAt(lines[k := l], x) == if x == l.id then Some(l) else LineAt(lines, x)
    ensures forall j :: lines[k].job != Some(j) && l.job != Some(j) ==>
      Keep(OnJob(j), lines[k := l]) == Keep(OnJob(j), lines)
  {
    forall x ensures LineAt(lines[k := l], x) == if x == l.id then Some(l) else LineAt(lines, x) {
      IndexWhereUpdate(LineIs(x), lines, k, l);
      if x == l.id {
        LineAtMember(lines, k);
      }
    }
    forall j | lines[k].job != Some(j) && l.job != Some(j)
      ensures Keep(OnJob(j), lines[k := l]) == Keep(OnJob(j), lines)
    {
      WriteElsewhere(lines, k, l, OnJob(j));
    }
  }

  lemma {:induction false} AddLine(lines: seq<Line>, l: Line)
    requires Distinct(lines) && !Any(LineIs(l.id), lines)
    ensures Distinct(lines + [l])
    ensures forall x :: LineAt(lines + [l], x) == if x == l.id then Some(l) else LineAt(lines, x)
    ensures forall j :: l.job != Some(j) ==> Keep(OnJob(j), lines + [l]) == Keep(OnJob(j), lines)
  {
    IndexWhereFirst(LineIs(l.id), lines);
    forall x ensures LineAt(lines + [l], x) == if x == l.id then Some(l) else LineAt(lines, x) {
      IndexWhereAppend(LineIs(x), lines, l);
    }
    forall j | l.job != Some(j) ensures Keep(OnJob(j), lines + [l]) == Keep(OnJob(j), lines) {
      KeepAppend(OnJob(j), lines, [l]);
      KeepNone(OnJob(j), [l]);
    }
  }

  lemma {:induction false} LineAtCons(l: Line, rest: seq<Line>, x: Id)
    ensures LineAt([l] + rest, x) == if x == l.id then Some(l) else LineAt(rest, x)
  {
  }

  lemma {:induction false} KeepLineAt(p: Line -> bool, lines: seq<Line>, x: Id)
    requires Distinct(lines)
    ensures LineAt(Keep(p, lines), x) == (var l := LineAt(lines, x); if l.Some? && p(l.value) then l else None)
  {
    if lines == [] {
    } else {
      var l, rest := lines[0], lines[1..];
      assert forall i :: 0 <= i < |rest| ==> rest[i] == lines[i + 1];
      assert lines == [l] + rest;
      KeepLineAt(p, rest, x);
      LineAtCons(l, rest, x);
      LineAtCons(l, Keep(p, rest), x);
      if x == l.id {
        IndexWhereNone(LineIs(x), rest);
      }
    }
  }

  lemma {:induction false} KeepDistinct(p: Line -> bool, lines: seq<Line>)
    requires Distinct(lines)
    ensures Distinct(Keep(p, lines))
  {
    if lines == [] {
    } else {
      var l, rest := lines[0], lines[1..];
      var kept := Keep(p, rest);
      KeepDistinct(p, rest);
      forall i | 0 <= i < |kept| ensures kept[i].id != l.id {
        KeepMember(p, rest, kept[i]);
      }
    }
  }

  /** Filtering the table: a lookup finds the same line, if it passed. */
  lemma {:induction false} KeepLines(p: Line -> bool, lines: seq<Line>)
    requires Distinct(lines)
    ensures Distinct(Keep(p, lines))
    ensures forall x ::
      LineAt(Keep(p, lines), x) == (var l := LineAt(lines, x); if l.Some? && p(l.value) then l else None)
  {
    KeepDistinct(p, lines);
    forall x
      ensures LineAt(Keep(p, lines), x) == (var l := LineAt(lines, x); if l.Some? && p(l.value) then l else None)
    {
      KeepLineAt(p, lines, x);
    }
  }

  lemma {:induction false} DropElsewhere(lines: seq<Line>, id: Id, job: Id)
    requires LineAt(lines, id).Some? ==> LineAt(lines, id).value.job != Some(job)
    requires Distinct(lines)
    ensures Keep(OnJob(job), Keep(LineIsNot(id), lines)) == Keep(OnJob(job), lines)
  {
    if lines == [] {
    } else {
      var l, rest := lines[0], lines[1..];
      assert forall i :: 0 <= i < |rest| ==> rest[i] == lines[i + 1];
      if l.id == id {
        KeepAll(LineIsNot(id), rest);
      } else {
        DropElsewhere(rest, id, job);
        KeepCons(OnJob(job), l, Keep(LineIsNot(id), rest));
      }
    }
  }

  lemma {:induction false} DropLine(lines: seq<Line>, id: Id)
    requires Distinct(lines)
    ensures Distinct(Keep(LineIsNot(id), lines))
    ensures forall x :: LineAt(Keep(LineIsNot(id), lines), x) == if x == id then None else LineAt(lines, x)
    ensures forall j :: (LineAt(lines, id).Some? ==> LineAt(lines, id).value.job != Some(j)) ==>
      Keep(OnJob(j), Keep(LineIsNot(id), lines)) == Keep(OnJob(j), lines)
  {
    KeepLines(LineIsNot(id), lines);
    forall j | LineAt(lines, id).Some? ==> LineAt(lines, id).value.job != Some(j)
      ensures Keep(OnJob(j), Keep(LineIsNot(id), lines)) == Keep(OnJob(j), lines)
    {
      DropElsewhere(lines, id, j);
    }
  }

  // ---- saving ----

  ghost predicate DistinctSaveIds(s: Save) {
    forall i, j :: 0 <= i < j < |s.incoming| ==> SaveId(s, i) != SaveId(s, j)
  }

  /** Rows that the job had are still on it until the save has overwritten them. */
  ghost predicate StillOnJob(lines: seq<Line>, existing: seq<Line>, job: Id) {
    forall x :: LineAt(existing, x).Some? ==> LineAt(lines, x).Some? && LineAt(lines, x).value.job == Some(job)
  }

  ghost predicate SavedFrom(lines: seq<Line>, existing: seq<Line>, s: Save, i: nat, result: seq<Line>)
    requires i <= |s.incoming|
  {
    && Distinct(result)
    && StillOnJob(result, existing, s.job)
    && (forall j :: i <= j < |s.incoming| ==> LineAt(result, SaveId(s, j)) == Some(Row(existing, s, j)))
    && (forall x :: (forall j :: i <= j < |s.incoming| ==> SaveId(s, j) != x) ==> LineAt(result, x) == LineAt(lines, x))
    && (forall other :: other != s.job ==> Keep(OnJob(other), result) == Keep(OnJob(other), lines))
  }

  lemma {:induction false} SaveOneEffect(lines: seq<Line>, existing: seq<Line>, s: Save, i: nat)
    requires i < |s.incoming| && Distinct(lines) && StillOnJob(lines, existing, s.job)
    ensures SaveOne(lines, existing, s, i).Success? <==>
      ExistingFor(existing, s, i).Some? || LineAt(lines, SaveId(s, i)).None?
    ensures SaveOne(lines, existing, s, i).Success? ==>
      var result := SaveOne(lines, existing, s, i).value;
      && Distinct(result) && StillOnJob(result, existing, s.job)
      && (forall x :: LineAt(result, x) == if x == SaveId(s, i) then Some(Row(existing, s, i)) else LineAt(lines, x))
      && (forall other :: other != s.job ==> Keep(OnJob(other), result) == Keep(OnJob(other), lines))
  {
    var row, k := Row(existing, s, i), IndexWhere(LineIs(SaveId(s, i)), lines);
    if ExistingFor(existing, s, i).Some? {
      assert LineAt(existing, SaveId(s, i)).Some?;
      WriteLine(lines, k, row);
    } else if k == |lines| {
      AddLine(lines, row);
    }
  }

  /** The row at `j` can be written: the line was on the job, or its id is free. */
  ghost predicate Acceptable(lines: seq<Line>, existing: seq<Line>, s: Save, j: nat)
    requires j < |s.incoming|
  {
    ExistingFor(existing, s, j).Some? || LineAt(lines, SaveId(s, j)).None?
  }

  ghost predicate Accepts(lines: seq<Line>, existing: seq<Line>, s: Save, i: nat) {
    forall j :: i <= j < |s.incoming| ==> Acceptable(lines, existing, s, j)
  }

  lemma {:induction false} SaveOneAccepts(lines: seq<Line>, existing: seq<Line>, s: Save, i: nat)
    requires i < |s.incoming| && Distinct(lines) && StillOnJob(lines, existing, s.job)
    ensures SaveOne(lines, existing, s, i).Success? <==> Acceptable(lines, existing, s, i)
    ensures SaveOne(lines, existing, s, i).Success? ==>
      Distinct(SaveOne(lines, existing, s, i).value) &&
        StillOnJob(SaveOne(lines, existing, s, i).value, existing, s.job)
  {
    SaveOneEffect(lines, existing, s, i);
  }

  /** Saving one row does not change whether another can be saved. */
  lemma {:induction false} StillAcceptable(lines: seq<Line>, existing: seq<Line>, s: Save, i: nat, j: nat)
    requires i < |s.incoming| && j < |s.incoming| && i != j && DistinctSaveIds(s)
    requires Distinct(lines) && StillOnJob(lines, existing, s.job) && SaveOne(lines, existing, s, i).Success?
    ensures Acceptable(SaveOne(lines, existing, s, i).value, existing, s, j) <==> Acceptable(lines, existing, s, j)
  {
    SaveOneEffect(lines, existing, s, i);
    assert SaveId(s, i) != SaveId(s, j);
  }

  lemma {:induction false} SavedIsAcceptable(lines: seq<Line>, existing: seq<Line>, s: Save, i: nat, j: nat)
    requires i <= j < |s.incoming| && Distinct(lines) && StillOnJob(lines, existing, s.job) && DistinctSaveIds(s)
    requires SaveFrom(lines, existing, s, i).Success?
    ensures Acceptable(lines, existing, s, j)
    decreases j - i
  {
    SaveOneAccepts(lines, existing, s, i);
    if i < j {
      SavedIsAcceptable(SaveOne(lines, existing, s, i).value, existing, s, i + 1, j);
      StillAcceptable(lines, existing, s, i, j);
    }
  }

  lemma {:induction false} FailsSomewhere(lines: seq<Line>, existing: seq<Line>, s: Save, i: nat) returns (j: nat)
    requires i <= |s.incoming| && Distinct(lines) && StillOnJob(lines, existing, s.job) && DistinctSaveIds(s)
    requires SaveFrom(lines, existing, s, i).Failure?
    ensures i <= j < |s.incoming| && !Acceptable(lines, existing, s, j)
    decreases |s.incoming| - i
  {
    SaveOneAccepts(lines, existing, s, i);
    j := i;
    if SaveOne(lines, existing, s, i).Success? {
      j := FailsSomewhere(SaveOne(lines, existing, s, i).value, existing, s, i + 1);
      StillAcceptable(lines, existing, s, i, j);
    }
  }

  /** With distinct ids the save goes through exactly when every row can be written. */
  lemma {:induction false} SaveFromAccepts(lines: seq<Line>, existing: seq<Line>, s: Save, i: nat)
    requires i <= |s.incoming| && Distinct(lines) && StillOnJob(lines, existing, s.job) && DistinctSaveIds(s)
    ensures SaveFrom(lines, existing, s, i).Success? <==> Accepts(lines, existing, s, i)
  {
    if SaveFrom(lines, existing, s, i).Success? {
      forall j | i <= j < |s.incoming| ensures Acceptable(lines, existing, s, j) {
        SavedIsAcceptable(lines, existing, s, i, j);
      }
    } else {
      var j := FailsSomewhere(lines, existing, s, i);
    }
  }

  lemma {:induction false} SaveFromEffect(lines: seq<Line>, existing: seq<Line>, s: Save, i: nat)
    requires i <= |s.incoming| && Distinct(lines) && StillOnJob(lines, existing, s.job) && DistinctSaveIds(s)
    requires SaveFrom(lines, existing, s, i).Success?
    ensures SavedFrom(lines, existing, s, i, SaveFrom(lines, existing, s, i).value)
    decreases |s.incoming| - i
  {
    if i < |s.incoming| {
      SaveOneEffect(lines, existing, s, i);
      var one := SaveOne(lines, existing, s, i).value;
      SaveFromEffect(one, existing, s, i + 1);
    }
  }

  // ---- retiring ----

  function ReferencedIn(q: Quotes): Line -> bool { (l: Line) => Referenced(q, l.id) }

  /** How many of the first `m` stale lines are kept: the offset of the next detached position. */
  function KeptBefore(q: Quotes, stale: seq<Line>, m: nat): nat
    requires m <= |stale|
  {
    |Keep(ReferencedIn(q), stale[..m])|
  }

  /** What becomes of the `m`th stale line. */
  function Fate(q: Quotes, lines: seq<Line>, stale: seq<Line>, position: nat, m: nat): Option<Line>
    requires m < |stale|
  {
    var l := LineAt(lines, stale[m].id);
    if l.Some? && Referenced(q, stale[m].id) then Some(Detached(l.value, position + KeptBefore(q, stale, m))) else None
  }

  ghost predicate Retired(q: Quotes, lines: seq<Line>, stale: seq<Line>, position: nat, result: seq<Line>) {
    && Distinct(result)
    && (forall m :: 0 <= m < |stale| ==> LineAt(result, stale[m].id) == Fate(q, lines, stale, position, m))
    && (forall x :: (forall m :: 0 <= m < |stale| ==> stale[m].id != x) ==> LineAt(result, x) == LineAt(lines, x))
  }

  ghost predicate OffOtherJobs(lines: seq<Line>, stale: seq<Line>, job: Id) {
    forall m :: 0 <= m < |stale| ==>
      LineAt(lines, stale[m].id).Some? && LineAt(lines, stale[m].id).value.job == Some(job)
  }

  /** One stale line, kept or deleted. */
  function RetireOne(q: Quotes, lines: seq<Line>, id: Id, position: nat): seq<Line> {
    var k := IndexWhere(LineIs(id), lines);
    if !Referenced(q, id) then Keep(LineIsNot(id), lines)
    else if k < |lines| then lines[k := Detached(lines[k], position)] else lines
  }

  lemma {:induction false} RetireOneEffect(q: Quotes, lines: seq<Line>, id: Id, position: nat, job: Id)
    requires Distinct(lines) && LineAt(lines, id).Some? && LineAt(lines, id).value.job == Some(job)
    ensures var result := RetireOne(q, lines, id, position);
      && Distinct(result)
      && (forall x :: x != id ==> LineAt(result, x) == LineAt(lines, x))
      && LineAt(result, id) == (if Referenced(q, id) then Some(Detached(LineAt(lines, id).value, position)) else None)
      && (forall other :: other != job ==> Keep(OnJob(other), result) == Keep(OnJob(other), lines))
  {
    var k := IndexWhere(LineIs(id), lines);
    WriteLine(lines, k, Detached(lines[k], position));
    DropLine(lines, id);
  }

  lemma {:induction false} KeptBeforeCons(q: Quotes, stale: seq<Line>, m: nat)
    requires 1 <= m <= |stale|
    ensures KeptBefore(q, stale, m) == (if Referenced(q, stale[0].id) then 1 else 0) + KeptBefore(q, stale[1..], m - 1)
  {
    assert stale[..m] == [stale[0]] + stale[1..][..m - 1];
    KeepCons(ReferencedIn(q), stale[0], stale[1..][..m - 1]);
  }

  lemma {:induction false} FateCons(q: Quotes, lines: seq<Line>, one: seq<Line>, stale: seq<Line>, position: nat,
                                    next: nat, m: nat)
    requires 0 < m < |stale| && Distinct(stale)
    requires next == if Referenced(q, stale[0].id) then position + 1 else position
    requires LineAt(one, stale[m].id) == LineAt(lines, stale[m].id)
    ensures Fate(q, one, stale[1..], next, m - 1) == Fate(q, lines, stale, position, m)
  {
    assert stale[1..][m - 1] == stale[m];
    KeptBeforeCons(q, stale, m);
  }

  lemma {:induction false} RetiredCons(q: Quotes, lines: seq<Line>, one: seq<Line>, stale: seq<Line>, position: nat,
                                       next: nat, result: seq<Line>)
    requires stale != [] && Distinct(stale) && Retired(q, one, stale[1..], next, result)
    requires next == if Referenced(q, stale[0].id) then position + 1 else position
    requires forall x :: x != stale[0].id ==> LineAt(one, x) == LineAt(lines, x)
    requires LineAt(one, stale[0].id) == Fate(q, lines, stale, position, 0)
    ensures Retired(q, lines, stale, position, result)
  {
    var rest := stale[1..];
    assert forall m :: 0 <= m < |rest| ==> rest[m] == stale[m + 1];
    assert LineAt(result, stale[0].id) == LineAt(one, stale[0].id);
    forall m | 0 < m < |stale| ensures LineAt(result, stale[m].id) == Fate(q, lines, stale, position, m) {
      assert stale[m] == rest[m - 1];
      FateCons(q, lines, one, stale, position, next, m);
      assert LineAt(result, rest[m - 1].id) == Fate(q, one, rest, next, m - 1);
    }
    forall x | forall m :: 0 <= m < |stale| ==> stale[m].id != x ensures LineAt(result, x) == LineAt(lines, x) {
      assert stale[0].id != x;
      assert forall m :: 0 <= m < |rest| ==> rest[m].id != x;
    }
  }

  lemma {:induction false} RetireAllEffect(q: Quotes, lines: seq<Line>, stale: seq<Line>, position: nat, job: Id)
    requires Distinct(lines) && Distinct(stale) && OffOtherJobs(lines, stale, job)
    ensures Retired(q, lines, stale, position, RetireAll(q, lines, stale, position))
    ensures forall other :: other != job ==>
      Keep(OnJob(other), RetireAll(q, lines, stale, position)) == Keep(OnJob(other), lines)
    decreases stale
  {
    if stale == [] {
    } else {
      var id, rest := stale[0].id, stale[1..];
      var one := RetireOne(q, lines, id, position);
      var next := if Referenced(q, id) then position + 1 else position;
      RetireOneEffect(q, lines, id, position, job);
      assert Distinct(rest) && OffOtherJobs(one, rest, job) by {
        forall m | 0 <= m < |rest|
          ensures rest[m] == stale[m + 1] && LineAt(one, rest[m].id) == LineAt(lines, rest[m].id)
        {
        }
      }
      assert stale[..0] == [];
      RetireAllEffect(q, one, rest, next, job);
      RetiredCons(q, lines, one, stale, position, next, RetireAll(q, one, rest, next));
    }
  }

  // ---- the whole save ----

  function Existing(q: Quotes, s: Save): seq<Line> { Keep(OnJob(s.job), q.lines) }

  function StaleLines(q: Quotes, s: Save): seq<Line> { Keep(Stale(s.incoming), Existing(q, s)) }

  ghost predicate IsSaveId(s: Save, x: Id) {
    exists i :: 0 <= i < |s.incoming| && SaveId(s, i) == x
  }

  /** The tables after a save: the listed rows, the fate of each stale line, and nothing else. */
  ghost predicate Exact(q: Quotes, s: Save, lines: seq<Line>) {
    && Distinct(lines)
    && (forall i :: 0 <= i < |s.incoming| ==> LineAt(lines, SaveId(s, i)) == Some(Row(Existing(q, s), s, i)))
    && (forall m :: 0 <= m < |StaleLines(q, s)| ==>
      LineAt(lines, StaleLines(q, s)[m].id) == Fate(q, q.lines, StaleLines(q, s), |s.incoming|, m))
    && (forall x :: !IsSaveId(s, x) && LineAt(StaleLines(q, s), x).None? ==> LineAt(lines, x) == LineAt(q.lines, x))
    && (forall other :: other != s.job ==> Keep(OnJob(other), lines) == Keep(OnJob(other), q.lines))
  }

  /** The stale line with an id: a line of the job that the list does not name. */
  function StaleAt(q: Quotes, s: Save, x: Id): Option<Line> {
    var l := LineAt(q.lines, x);
    if l.Some? && l.value.job == Some(s.job) && x !in GivenIds(s.incoming) then l else None
  }

  lemma {:induction false} StaleFacts(q: Quotes, s: Save)
    requires Distinct(q.lines)
    ensures Distinct(Existing(q, s)) && Distinct(StaleLines(q, s)) && StillOnJob(q.lines, Existing(q, s), s.job)
    ensures forall m :: 0 <= m < |StaleLines(q, s)| ==>
      LineAt(q.lines, StaleLines(q, s)[m].id) == Some(StaleLines(q, s)[m]) && StaleLines(q, s)[m].job == Some(s.job)
    ensures forall x :: LineAt(StaleLines(q, s), x) == StaleAt(q, s, x)
  {
    KeepLines(OnJob(s.job), q.lines);
    KeepLines(Stale(s.incoming), Existing(q, s));
    forall m | 0 <= m < |StaleLines(q, s)|
      ensures LineAt(q.lines, StaleLines(q, s)[m].id) == Some(StaleLines(q, s)[m]) &&
        StaleLines(q, s)[m].job == Some(s.job)
    {
      LineAtMember(StaleLines(q, s), m);
    }
  }

  /** No listed row is stale: a given id is excluded, and a new id must be free. */
  lemma {:induction false} ListedIsNotStale(q: Quotes, s: Save, i: nat)
    requires Distinct(q.lines) && i < |s.incoming| && Accepts(q.lines, Existing(q, s), s, 0)
    ensures LineAt(StaleLines(q, s), SaveId(s, i)).None?
  {
    StaleFacts(q, s);
    assert Acceptable(q.lines, Existing(q, s), s, i);
    if s.incoming[i].id.Some? {
      assert s.incoming[i].id.value in GivenIds(s.incoming);
    }
  }

  lemma {:induction false} RetireStale(q: Quotes, s: Save, saved: seq<Line>)
    requires Distinct(q.lines) && Accepts(q.lines, Existing(q, s), s, 0) &&
      SavedFrom(q.lines, Existing(q, s), s, 0, saved)
    ensures Exact(q, s, RetireAll(q, saved, StaleLines(q, s), |s.incoming|))
  {
    var existing, stale, n := Existing(q, s), StaleLines(q, s), |s.incoming|;
    StaleFacts(q, s);
    forall i | 0 <= i < n ensures LineAt(stale, SaveId(s, i)).None? {
      ListedIsNotStale(q, s, i);
    }
    forall m | 0 <= m < |stale| ensures LineAt(saved, stale[m].id) == Some(stale[m]) {
      LineAtMember(stale, m);
    }
    RetireAllEffect(q, saved, stale, n, s.job);
    var lines := RetireAll(q, saved, stale, n);
    forall x | LineAt(stale, x).None? ensures LineAt(lines, x) == LineAt(saved, x) {
      IndexWhereFirst(LineIs(x), stale);
    }
  }

  /** A save succeeds exactly when every listed line was on the job or brings a free id; it then
      leaves the listed rows, detaches the referenced stale lines and deletes the others. */
  lemma {:induction false} BulkExact(q: Quotes, s: Save)
    requires Distinct(q.lines) && DistinctSaveIds(s)
    ensures BulkReplace(q, s).Success? <==> Accepts(q.lines, Existing(q, s), s, 0)
    ensures BulkReplace(q, s).Success? ==> Exact(q, s, BulkReplace(q, s).value.lines)
  {
    StaleFacts(q, s);
    SaveFromAccepts(q.lines, Existing(q, s), s, 0);
    if BulkReplace(q, s).Success? {
      SaveFromEffect(q.lines, Existing(q, s), s, 0);
      RetireStale(q, s, SaveFrom(q.lines, Existing(q, s), s, 0).value);
    }
  }

  // ---- reading back ----

  /** The order of `findMany`: by `sort_order`, unset first. */
  function ByOrder(): Line -> real { (l: Line) => if l.sortOrder.Some? then l.sortOrder.value as real else -1.0 }

  function Rows(existing: seq<Line>, s: Save): (rows: seq<Line>)
    ensures |rows| == |s.incoming|
    ensures forall i :: 0 <= i < |rows| ==> rows[i] == Row(existing, s, i)
  {
    seq(|s.incoming|, i requires 0 <= i < |s.incoming| => Row(existing, s, i))
  }

  lemma {:induction false} KeepOnly<T>(p: T -> bool, s: seq<T>, i: nat)
    requires i < |s| && p(s[i])
    requires forall j :: 0 <= j < |s| && j != i ==> !p(s[j])
    ensures Keep(p, s) == [s[i]]
  {
    if i == 0 {
      assert forall x :: x in s[1..] ==> !p(x);
      KeepNone(p, s[1..]);
    } else {
      KeepOnly(p, s[1..], i - 1);
    }
  }

  /** The lines left on the job are the listed rows. */
  lemma {:induction false} OnJobIsListed(q: Quotes, s: Save, lines: seq<Line>, k: nat) returns (i: nat)
    requires Distinct(q.lines) && Exact(q, s, lines) && k < |Keep(OnJob(s.job), lines)|
    ensures i < |s.incoming| && Keep(OnJob(s.job), lines)[k] == Row(Existing(q, s), s, i)
  {
    var kept := Keep(OnJob(s.job), lines);
    var l := kept[k];
    KeepLines(OnJob(s.job), lines);
    LineAtMember(kept, k);
    assert LineAt(lines, l.id) == Some(l) && l.job == Some(s.job);
    StaleFacts(q, s);
    assert LineAt(StaleLines(q, s), l.id).None?;
    assert IsSaveId(s, l.id) by {
      if !IsSaveId(s, l.id) && l.id in GivenIds(s.incoming) {
        var g :| 0 <= g < |s.incoming| && s.incoming[g].id.Some? && s.incoming[g].id.value == l.id &&
          SaveId(s, g) == l.id;
      }
    }
    i :| 0 <= i < |s.incoming| && SaveId(s, i) == l.id;
  }

  lemma {:induction false} ListedIsOnJob(q: Quotes, s: Save, lines: seq<Line>, i: nat) returns (k: nat)
    requires Exact(q, s, lines) && i < |s.incoming|
    ensures k < |Keep(OnJob(s.job), lines)| && Keep(OnJob(s.job), lines)[k] == Row(Existing(q, s), s, i)
  {
    var kept, row := Keep(OnJob(s.job), lines), Row(Existing(q, s), s, i);
    KeepLines(OnJob(s.job), lines);
    assert LineAt(kept, row.id) == Some(row);
    k := IndexWhere(LineIs(row.id), kept);
  }

  lemma {:induction false} KeyPresent(q: Quotes, s: Save, lines: seq<Line>, i: nat)
    requires Distinct(q.lines) && Exact(q, s, lines) && i < |s.incoming|
    ensures Keep(HasKey(ByOrder(), i as real), Keep(OnJob(s.job), lines)) == [Row(Existing(q, s), s, i)]
  {
    var p, kept := HasKey(ByOrder(), i as real), Keep(OnJob(s.job), lines);
    var k := ListedIsOnJob(q, s, lines, i);
    KeepDistinct(OnJob(s.job), lines);
    forall j | 0 <= j < |kept| && j != k ensures !p(kept[j]) {
      assert kept[j].id != kept[k].id;
      var o := OnJobIsListed(q, s, lines, j);
    }
    KeepOnly(p, kept, k);
  }

  lemma {:induction false} KeyAbsent(q: Quotes, s: Save, lines: seq<Line>, key: real)
    requires Distinct(q.lines) && Exact(q, s, lines)
    requires forall i :: 0 <= i < |s.incoming| ==> ByOrder()(Rows(Existing(q, s), s)[i]) != key
    ensures Keep(HasKey(ByOrder(), key), Keep(OnJob(s.job), lines)) == []
  {
    var p, kept := HasKey(ByOrder(), key), Keep(OnJob(s.job), lines);
    forall x | x in kept ensures !p(x) {
      var j :| 0 <= j < |kept| && kept[j] == x;
      var o := OnJobIsListed(q, s, lines, j);
      assert Rows(Existing(q, s), s)[o] == x;
    }
    KeepNone(p, kept);
  }

  lemma {:induction false} SameKey(q: Quotes, s: Save, lines: seq<Line>, key: real)
    requires Distinct(q.lines) && Exact(q, s, lines)
    ensures Keep(HasKey(ByOrder(), key), Keep(OnJob(s.job), lines)) ==
      Keep(HasKey(ByOrder(), key), Rows(Existing(q, s), s))
  {
    var p, rows := HasKey(ByOrder(), key), Rows(Existing(q, s), s);
    if i: nat :| i < |rows| && p(rows[i]) {
      KeyPresent(q, s, lines, i);
      KeepOnly(p, rows, i);
    } else {
      KeyAbsent(q, s, lines, key);
      KeepNone(p, rows);
    }
  }

  /** Reading the job back by `sort_order` gives the saved list, in its order, numbered 0 to n-1. */
  lemma {:induction false} ReadBack(q: Quotes, s: Save)
    requires Distinct(q.lines) && DistinctSaveIds(s) && BulkReplace(q, s).Success?
    ensures Sort(ByOrder(), Keep(OnJob(s.job), BulkReplace(q, s).value.lines)) == Rows(Existing(q, s), s)
  {
    BulkExact(q, s);
    var lines := BulkReplace(q, s).value.lines;
    var kept, rows := Keep(OnJob(s.job), lines), Rows(Existing(q, s), s);
    SortSorted(ByOrder(), kept);
    forall key ensures Keep(HasKey(ByOrder(), key), Sort(ByOrder(), kept)) == Keep(HasKey(ByOrder(), key), rows) {
      SortStable(ByOrder(), kept, key);
      SameKey(q, s, lines, key);
    }
    SortedUnique(ByOrder(), Sort(ByOrder(), kept), rows);
  }

  // ---- saving twice ----

  ghost predicate AllNamed(s: Save) {
    forall i :: 0 <= i < |s.incoming| ==> s.incoming[i].id.Some?
  }

  /** Row `i` keeps its rate when saved again: only a new line sent a rate of zero or less loses it,
      because the first save replaces that rate by the default and the second one does not. */
  predicate RateKept(existing: seq<Line>, s: Save, i: nat)
    requires i < |s.incoming|
  {
    var rate := s.incoming[i].taxRatePct;
    ExistingFor(existing, s, i).Some? || rate.None? || rate.value > 0.0 || rate.value == s.defaultTax
  }

  lemma {:induction false} SavedAgain(before: seq<Line>, after: seq<Line>, s: Save, i: nat)
    requires i < |s.incoming| && ExistingFor(after, s, i) == Some(Row(before, s, i))
    ensures Row(after, s, i) == Row(before, s, i) <==> RateKept(before, s, i)
  {
  }

  /** After a save of named lines every listed line is on the job and nothing is stale. */
  lemma {:induction false} NothingStale(q: Quotes, s: Save, lines: seq<Line>)
    requires Distinct(q.lines) && Exact(q, s, lines) && AllNamed(s)
    ensures Keep(Stale(s.incoming), Keep(OnJob(s.job), lines)) == []
    ensures forall i :: 0 <= i < |s.incoming| ==>
      ExistingFor(Keep(OnJob(s.job), lines), s, i) == Some(Row(Existing(q, s), s, i))
  {
    var kept := Keep(OnJob(s.job), lines);
    forall l | l in kept ensures !Stale(s.incoming)(l) {
      var k :| 0 <= k < |kept| && kept[k] == l;
      var i := OnJobIsListed(q, s, lines, k);
      assert s.incoming[i].id.Some? && l.id == s.incoming[i].id.value;
    }
    KeepNone(Stale(s.incoming), kept);
    forall i | 0 <= i < |s.incoming| ensures ExistingFor(kept, s, i) == Some(Row(Existing(q, s), s, i)) {
      KeepLineAt(OnJob(s.job), lines, SaveId(s, i));
      assert LineAt(lines, SaveId(s, i)) == Some(Row(Existing(q, s), s, i));
    }
  }

  lemma {:induction false} SaveFromFixed(lines: seq<Line>, existing: seq<Line>, s: Save, i: nat)
    requires i <= |s.incoming|
    requires forall j :: i <= j < |s.incoming| ==>
      ExistingFor(existing, s, j).Some? && LineAt(lines, SaveId(s, j)) == Some(Row(existing, s, j))
    ensures SaveFrom(lines, existing, s, i) == Success(lines)
    decreases |s.incoming| - i
  {
    if i < |s.incoming| {
      var k := IndexWhere(LineIs(SaveId(s, i)), lines);
      assert LineAt(lines, SaveId(s, i)) == Some(Row(existing, s, i));
      assert lines[k := Row(existing, s, i)] == lines;
      SaveFromFixed(lines, existing, s, i + 1);
    }
  }

  lemma {:induction false} GroupsKept(groups: seq<Group>, job: Id, incoming: seq<Incoming>, g: Id)
    requires Any(GroupIs(g), groups)
    ensures Any(GroupIs(g), EnsureGroups(groups, job, incoming))
    decreases incoming
  {
    if incoming == [] {
    } else {
      var name := incoming[0].group;
      if name.Some? && !Any(GroupIs(name.value), groups) {
        var group := Group(name.value, job, "New group");
        IndexWhereAppend(GroupIs(g), groups, group);
        GroupsKept(groups + [group], job, incoming[1..], g);
      } else {
        GroupsKept(groups, job, incoming[1..], g);
      }
    }
  }

  lemma {:induction false} GroupsEnsured(groups: seq<Group>, job: Id, incoming: seq<Incoming>, i: nat)
    requires i < |incoming| && incoming[i].group.Some?
    ensures Any(GroupIs(incoming[i].group.value), EnsureGroups(groups, job, incoming))
    decreases incoming
  {
    var name := incoming[0].group;
    var next := if name.Some? && !Any(GroupIs(name.value), groups)
                then groups + [Group(name.value, job, "New group")] else groups;
    if i == 0 {
      IndexWhereAppend(GroupIs(name.value), groups, Group(name.value, job, "New group"));
      GroupsKept(next, job, incoming[1..], name.value);
    } else {
      assert incoming[i] == incoming[1..][i - 1];
      GroupsEnsured(next, job, incoming[1..], i - 1);
    }
  }

  lemma {:induction false} GroupsFixed(groups: seq<Group>, job: Id, incoming: seq<Incoming>)
    requires forall i :: 0 <= i < |incoming| && incoming[i].group.Some? ==>
      Any(GroupIs(incoming[i].group.value), groups)
    ensures EnsureGroups(groups, job, incoming) == groups
    decreases incoming
  {
    if incoming == [] {
    } else {
      assert forall i :: 0 <= i < |incoming[1..]| ==> incoming[1..][i] == incoming[i + 1];
      GroupsFixed(groups, job, incoming[1..]);
    }
  }

  lemma {:induction false} GroupsStay(q: Quotes, s: Save)
    requires BulkReplace(q, s).Success?
    ensures var once := BulkReplace(q, s).value; EnsureGroups(once.groups, s.job, s.incoming) == once.groups
  {
    var once := BulkReplace(q, s).value;
    forall i | 0 <= i < |s.incoming| && s.incoming[i].group.Some?
      ensures Any(GroupIs(s.incoming[i].group.value), once.groups)
    {
      GroupsEnsured(q.groups, s.job, s.incoming, i);
    }
    GroupsFixed(once.groups, s.job, s.incoming);
  }

  /** Saving the same named list again: accepted, and unchanged exactly when every rate is kept. */
  lemma {:induction false} BulkIdempotent(q: Quotes, s: Save)
    requires Distinct(q.lines) && DistinctSaveIds(s) && AllNamed(s) && BulkReplace(q, s).Success?
    ensures var once := BulkReplace(q, s).value;
      (BulkReplace(once, s) == Success(once)) <==>
      (forall i :: 0 <= i < |s.incoming| ==> RateKept(Existing(q, s), s, i))
  {
    BulkExact(q, s);
    var once := BulkReplace(q, s).value;
    var before, after := Existing(q, s), Existing(once, s);
    NothingStale(q, s, once.lines);
    forall i | 0 <= i < |s.incoming| ensures Row(after, s, i) == Row(before, s, i) <==> RateKept(before, s, i) {
      SavedAgain(before, after, s, i);
    }
    StaleFacts(once, s);
    SaveFromAccepts(once.lines, after, s, 0);
    SaveFromEffect(once.lines, after, s, 0);
    GroupsStay(q, s);
    if forall i :: 0 <= i < |s.incoming| ==> RateKept(before, s, i) {
      SaveFromFixed(once.lines, after, s, 0);
    } else {
      var i :| 0 <= i < |s.incoming| && !RateKept(before, s, i);
      assert LineAt(SaveFrom(once.lines, after, s, 0).value, SaveId(s, i)) == Some(Row(after, s, i));
      assert LineAt(once.lines, SaveId(s, i)) == Some(Row(before, s, i));
    }
  }

  /** A second save always settles: the third changes nothing. */
  lemma {:induction false} BulkSettles(q: Quotes, s: Save)
    requires Distinct(q.lines) && DistinctSaveIds(s) && AllNamed(s) && BulkReplace(q, s).Success?
    ensures var once := BulkReplace(q, s).value;
      BulkReplace(once, s).Success? &&
        (var twice := BulkReplace(once, s).value; BulkReplace(twice, s) == Success(twice))
  {
    BulkExact(q, s);
    var once := BulkReplace(q, s).value;
    NothingStale(q, s, once.lines);
    BulkExact(once, s);
    forall i | 0 <= i < |s.incoming|
      ensures Acceptable(once.lines, Existing(once, s), s, i) && RateKept(Existing(once, s), s, i)
    {
      assert ExistingFor(Existing(once, s), s, i).Some?;
    }
    BulkIdempotent(once, s);
  }

  /** A new line sent a zero rate gets the default first and its zero the second time. */
  lemma {:induction false} ZeroRateIsSavedTwice()
    ensures exists q: Quotes, s: Save ::
      (q.lines == [] && AllNamed(s) && BulkReplace(q, s).Success? &&
       BulkReplace(BulkReplace(q, s).value, s) != BulkReplace(q, s))
  {
    var l := Incoming(Some("line"), None, None, None, None, None, None, Some(0.0), None, None, None, None);
    var q := Quotes(map[], [], [], [], [], [], []);
    var s := Save("job", [l], (i: nat) => "", "user", 5.0);
    assert AllNamed(s) && DistinctSaveIds(s);
    assert Existing(q, s) == [];
    assert !RateKept(Existing(q, s), s, 0);
    BulkExact(q, s);
    assert Acceptable(q.lines, Existing(q, s), s, 0);
    BulkIdempotent(q, s);
  }
}
