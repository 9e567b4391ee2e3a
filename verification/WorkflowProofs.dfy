/** What every accepted stage list guarantees, and exactly when saving and loading it changes nothing. */
module WorkflowProofs {
  import opened Wrappers
  import opened Sequences
  import opened Sorting
  import opened Text
  import opened JobStatus
  import opened Workflow

  // ---- keys ----

  predicate IsSlugChar(c: char) { IsKeyChar(c) || c == '_' }

  /** Slug characters without two underscores in a row. */
  ghost predicate SlugShape(r: string) {
    && (forall i :: 0 <= i < |r| ==> IsSlugChar(r[i]))
    && (forall i :: 0 < i < |r| ==> r[i - 1] != '_' || r[i] != '_')
  }

  /** Lower-case letters, digits and single underscores, not starting with one. */
  ghost predicate KeyShape(k: string) {
    && |k| <= MAX_KEY
    && SlugShape(k)
    && (k != "" ==> k[0] != '_')
  }

  lemma {:induction false} SquashShape(s: string, inRun: bool)
    ensures SlugShape(Squash(s, inRun))
    ensures inRun && Squash(s, inRun) != "" ==> Squash(s, inRun)[0] != '_'
    decreases s
  {
    if s == [] {
    } else {
      var tail := Squash(s[1..], !IsKeyChar(s[0]));
      SquashShape(s[1..], !IsKeyChar(s[0]));
    }
  }

  lemma {:induction false} SquashFixed(s: string, inRun: bool)
    requires SlugShape(s)
    requires inRun && s != "" ==> s[0] != '_'
    ensures Squash(s, inRun) == s
    decreases s
  {
    if s == [] {
    } else {
      var rest := s[1..];
      assert forall i :: 0 <= i < |rest| ==> rest[i] == s[i + 1];
      SquashFixed(rest, !IsKeyChar(s[0]));
      assert s == [s[0]] + rest;
    }
  }

  /** Whatever comes in, the key that comes out has the shape. */
  lemma {:induction false} NormalizedKeyShape(value: string)
    ensures KeyShape(NormalizeKey(value))
  {
    var squashed := Squash(LowerAll(Trim(value)), false);
    SquashShape(LowerAll(Trim(value)), false);
    var i, j := StripSlice(IsUnderscore, squashed);
    var stripped := Strip(IsUnderscore, squashed);
    assert NormalizeKey(value) == stripped[0..|NormalizeKey(value)|];
  }

  /** Trimming, lowering and squashing leave a slug alone. */
  lemma {:induction false} SlugIsPlain(k: string)
    requires SlugShape(k)
    ensures Squash(LowerAll(Trim(k)), false) == k
  {
    assert forall i :: 0 <= i < |k| ==> IsSlugChar(k[i]) && !IsSpace(k[i]) && Lower(k[i]) == k[i];
    StripFixed(IsSpace, k);
    assert LowerAll(k) == k;
    SquashFixed(k, false);
  }

  /** A key is a fixed point exactly when it has the shape and does not end with an underscore: the
      cut at 80 characters comes after the underscores are stripped. */
  lemma {:induction false} KeyFixedPoint(k: string)
    ensures NormalizeKey(k) == k <==> KeyShape(k) && (k == "" || k[|k| - 1] != '_')
  {
    NormalizedKeyShape(k);
    if KeyShape(k) {
      SlugIsPlain(k);
      StripFixed(IsUnderscore, k);
      var i, j := StripSlice(IsUnderscore, k);
    }
  }

  lemma {:induction false} KeyTwice(value: string)
    ensures NormalizeKey(NormalizeKey(value)) == NormalizeKey(value) <==>
      NormalizeKey(value) == "" || NormalizeKey(value)[|NormalizeKey(value)| - 1] != '_'
  {
    NormalizedKeyShape(value);
    KeyFixedPoint(NormalizeKey(value));
  }

  /** Such keys occur: 79 letters, an underscore and one more letter are cut behind the underscore. */
  lemma {:induction false} CutKeyIsNotFixed()
    ensures exists value :: NormalizeKey(NormalizeKey(value)) != NormalizeKey(value)
  {
    var value := seq(79, i => 'a') + "_b";
    assert SlugShape(value);
    SlugIsPlain(value);
    StripFixed(IsUnderscore, value);
    assert NormalizeKey(value) == value[..80] && value[..80][79] == '_';
    KeyTwice(value);
  }

  // ---- labels, colours and descriptions ----

  /** A label that survives: it is not empty and does not end in white space. An empty one would be
      read back from its key, and the cut at 80 characters comes after the trimming. */
  predicate LabelSettled(title: string) {
    title != "" && !IsSpace(title[|title| - 1])
  }

  lemma {:induction false} LabelTwice(title: string, key: string, again: string)
    requires title == NormalizeLabel(again, key) && KeyShape(key) && key != ""
    ensures NormalizeLabel(title, key) == title <==> LabelSettled(title)
  {
    if title == "" {
      assert !IsSpace(Spaced(key)[0]);
      DropRightKeepsFirst(IsSpace, Spaced(key));
    } else {
      var i, j := StripSlice(IsSpace, if again != "" then again else Spaced(key));
      assert !IsSpace(title[0]);
      StripFixed(IsSpace, title);
      var a, b := StripSlice(IsSpace, title);
      assert |Trim(title)| <= |title|;
    }
  }

  lemma {:induction false} ColorTwice(color: string)
    ensures NormalizeColor(NormalizeColor(color)) == NormalizeColor(color)
  {
    var once := NormalizeColor(color);
    var kept := Keep(IsColorChar, if color != "" then color else "slate");
    forall c | c in kept ensures IsColorChar(c) {
      KeepMember(IsColorChar, if color != "" then color else "slate", c);
    }
    assert forall c :: c in "slate" ==> IsColorChar(c);
    assert forall c :: c in once ==> IsColorChar(c);
    KeepAll(IsColorChar, once);
    assert |once| <= MAX_COLOR;
  }

  // ---- accepted lists ----

  ghost predicate DistinctKeys(stages: seq<Stage>) {
    forall i, j :: 0 <= i < j < |stages| ==> stages[i].key != stages[j].key
  }

  ghost predicate AcceptedList(stages: seq<Stage>) {
    && DistinctKeys(stages)
    && (forall s :: s in stages ==> s.key != "" && KeyShape(s.key))
    && Sorted(ByOrder(), stages)
    && Covers(stages)
  }

  /** A stage that normalising an input at some position gives. */
  ghost predicate Normalised(s: Stage) {
    exists raw: Raw, index: nat :: NormalizeOne(raw, index) == Success(s)
  }

  /** Collecting succeeds when nothing is rejected and the keys differ; it then gives the stages. */
  lemma {:induction false} CollectExact(each: seq<Result<Stage, Error>>, n: nat)
    requires n <= |each| && Collect(each, n).Success?
    ensures var r := Collect(each, n).value;
      DistinctKeys(r) && |r| == n && forall i :: 0 <= i < n ==> each[i] == Success(r[i])
  {
    if n == 0 {
    } else {
      CollectExact(each, n - 1);
      var before := Collect(each, n - 1).value;
      forall i | 0 <= i < |before| ensures before[i].key != each[n - 1].value.key {
      }
    }
  }

  lemma {:induction false} CollectAll(each: seq<Result<Stage, Error>>, stages: seq<Stage>, n: nat)
    requires n <= |each| == |stages| && DistinctKeys(stages)
    requires forall i :: 0 <= i < n ==> each[i] == Success(stages[i])
    ensures Collect(each, n) == Success(stages[..n])
  {
    if n == 0 {
    } else {
      CollectAll(each, stages, n - 1);
      assert stages[..n] == stages[..n - 1] + [stages[n - 1]];
      assert !HasKeyIn(stages[..n - 1], stages[n - 1].key);
    }
  }

  lemma {:induction false} NormalisedKey(raw: Raw, index: nat, s: Stage)
    requires NormalizeOne(raw, index) == Success(s)
    ensures Normalised(s) && s.key != "" && KeyShape(s.key)
  {
    NormalizedKeyShape(if raw.key != "" then raw.key else raw.title);
  }

  ghost predicate FreshKey(key: string, stages: seq<Stage>) { forall s :: s in stages ==> s.key != key }

  lemma {:induction false} ConsDistinct(x: Stage, s: seq<Stage>)
    ensures DistinctKeys([x] + s) <==> FreshKey(x.key, s) && DistinctKeys(s)
  {
    var all := [x] + s;
    assert forall i :: 0 <= i < |s| ==> all[i + 1] == s[i];
    if DistinctKeys(all) {
      forall y | y in s ensures y.key != x.key {
        var i :| 0 <= i < |s| && s[i] == y;
        assert all[0].key != all[i + 1].key;
      }
      forall i, j | 0 <= i < j < |s| ensures s[i].key != s[j].key {
        assert all[i + 1].key != all[j + 1].key;
      }
    }
  }

  lemma {:induction false} InsertDistinct(x: Stage, s: seq<Stage>)
    requires FreshKey(x.key, s) && DistinctKeys(s)
    ensures DistinctKeys(Insert(ByOrder(), x, s))
    ensures forall y :: y in Insert(ByOrder(), x, s) <==> y == x || y in s
  {
    ConsDistinct(x, s);
    if s != [] && !(ByOrder()(x) <= ByOrder()(s[0])) {
      var rest := s[1..];
      assert s == [s[0]] + rest;
      ConsDistinct(s[0], rest);
      InsertDistinct(x, rest);
      ConsDistinct(s[0], Insert(ByOrder(), x, rest));
    }
  }

  lemma {:induction false} SortDistinct(s: seq<Stage>)
    requires DistinctKeys(s)
    ensures DistinctKeys(Sort(ByOrder(), s))
    ensures forall y :: y in Sort(ByOrder(), s) <==> y in s
  {
    if s == [] {
    } else {
      assert s == [s[0]] + s[1..];
      ConsDistinct(s[0], s[1..]);
      SortDistinct(s[1..]);
      InsertDistinct(s[0], Sort(ByOrder(), s[1..]));
    }
  }

  /** Every accepted list has distinct non-empty keys, is sorted and covers the required lanes. */
  lemma {:induction false} AcceptedIsSound(raws: seq<Raw>)
    requires Normalize(raws).Success?
    ensures AcceptedList(Normalize(raws).value)
    ensures forall s :: s in Normalize(raws).value ==> Normalised(s)
  {
    var each := NormalizeEach(raws);
    var stages := Collect(each, |raws|).value;
    CollectExact(each, |raws|);
    SortDistinct(stages);
    SortSorted(ByOrder(), stages);
    forall s | s in Sort(ByOrder(), stages) ensures Normalised(s) && s.key != "" && KeyShape(s.key) {
      var i :| 0 <= i < |stages| && stages[i] == s;
      NormalisedKey(raws[i], i, s);
    }
  }

  // ---- normalising twice ----

  /** A stage that survives being written and read again. */
  predicate Settled(s: Stage) {
    s.key != "" && s.key[|s.key| - 1] != '_' && LabelSettled(s.title)
  }

  /** The texts of a normalised stage are kept when they are normalised again, or not, one by one. */
  lemma {:induction false} TextsAgain(raw: Raw, index: nat, s: Stage)
    requires NormalizeOne(raw, index) == Success(s)
    ensures s.key != "" && (NormalizeKey(s.key) == s.key <==> s.key[|s.key| - 1] != '_')
    ensures NormalizeLabel(s.title, s.key) == s.title <==> LabelSettled(s.title)
    ensures Take(MAX_DESCRIPTION, s.description) == s.description
    ensures NormalizeColor(s.color) == s.color
  {
    NormalisedKey(raw, index, s);
    KeyFixedPoint(s.key);
    LabelTwice(s.title, s.key, raw.title);
    ColorTwice(raw.color);
  }

  lemma {:induction false} WrittenAgain(s: Stage, index: nat)
    requires Normalised(s)
    ensures NormalizeOne(Written(s), index) == Success(s) <==> Settled(s)
    ensures NormalizeOne(Written(s), index).Success? ==> NormalizeOne(Written(s), index).value.sortOrder == s.sortOrder
  {
    var raw: Raw, i: nat :| NormalizeOne(raw, i) == Success(s);
    TextsAgain(raw, i, s);
  }

  /** Each stage of a list, written and normalised again. */
  lemma {:induction false} EachAgain(stages: seq<Stage>, each: seq<Result<Stage, Error>>)
    requires (forall s :: s in stages ==> Normalised(s)) && each == NormalizeEach(WrittenAll(stages))
    ensures |each| == |stages|
    ensures forall i :: 0 <= i < |stages| ==>
      (each[i] == Success(stages[i]) <==> Settled(stages[i])) &&
        (each[i].Success? ==> each[i].value.sortOrder == stages[i].sortOrder)
  {
    forall i | 0 <= i < |stages|
      ensures (each[i] == Success(stages[i]) <==> Settled(stages[i])) &&
        (each[i].Success? ==> each[i].value.sortOrder == stages[i].sortOrder)
    {
      WrittenAgain(stages[i], i);
    }
  }

  lemma {:induction false} SortedAlready(again: seq<Stage>, once: seq<Stage>)
    requires |again| == |once| && Sorted(ByOrder(), once)
    requires forall i :: 0 <= i < |once| ==> again[i].sortOrder == once[i].sortOrder
    ensures Sort(ByOrder(), again) == again
  {
    SortFixed(ByOrder(), again);
  }

  lemma {:induction false} CollectTwice(each: seq<Result<Stage, Error>>, once: seq<Stage>)
    requires |each| == |once| && AcceptedList(once)
    requires forall i :: 0 <= i < |once| ==>
      (each[i] == Success(once[i]) <==> Settled(once[i])) &&
        (each[i].Success? ==> each[i].value.sortOrder == once[i].sortOrder)
    ensures var again := Collect(each, |each|);
      (again.Success? && Sort(ByOrder(), again.value) == once) <==> forall s :: s in once ==> Settled(s)
  {
    if forall s :: s in once ==> Settled(s) {
      CollectAll(each, once, |each|);
      assert once[..|once|] == once;
      SortFixed(ByOrder(), once);
    } else if Collect(each, |each|).Success? {
      CollectExact(each, |each|);
      SortedAlready(Collect(each, |each|).value, once);
    }
  }

  /** Normalising an accepted list again returns it unchanged exactly when each stage is settled. */
  lemma {:induction false} NormalizeTwice(raws: seq<Raw>)
    requires Normalize(raws).Success?
    ensures var once := Normalize(raws).value;
      Normalize(WrittenAll(once)) == Success(once) <==> forall s :: s in once ==> Settled(s)
  {
    var once := Normalize(raws).value;
    AcceptedIsSound(raws);
    EachAgain(once, NormalizeEach(WrittenAll(once)));
    CollectTwice(NormalizeEach(WrittenAll(once)), once);
  }

  lemma {:induction false} DefaultsSettled()
    ensures forall s :: s in DEFAULT_STAGES ==> Settled(s)
  {
  }

  lemma {:induction false} DefaultKeysDiffer()
    ensures DistinctKeys(DEFAULT_STAGES)
  {
    var firsts, lengths := ['b', 'c', 'e', 'a', 'i', 'w', 'q', 'r', 'c', 'n'], [6, 8, 13, 8, 11, 13, 13, 5, 6, 17];
    forall i | 0 <= i < 10
      ensures DEFAULT_STAGES[i].key != "" && DEFAULT_STAGES[i].key[0] == firsts[i] &&
        |DEFAULT_STAGES[i].key| == lengths[i]
    {
    }
    forall i, j | 0 <= i < j < 10 ensures firsts[i] != firsts[j] || lengths[i] != lengths[j] {
    }
  }

  lemma {:induction false} ShortKeysShaped()
    ensures KeyShape("booked") && KeyShape("checking") && KeyShape("approved") && KeyShape("ready") &&
      KeyShape("closed")
  {
  }

  lemma {:induction false} LongKeysShaped()
    ensures KeyShape("estimate_sent") && KeyShape("in_progress") && KeyShape("waiting_parts")
    ensures KeyShape("quality_check") && KeyShape("no_show_cancelled")
  {
  }

  /** Four stages that stand for the required categories are enough. */
  lemma {:induction false} CoveredBy(stages: seq<Stage>, a: nat, b: nat, c: nat, d: nat)
    requires a < |stages| && b < |stages| && c < |stages| && d < |stages|
    requires Requires(BookedLane)(stages[a]) && Requires(ActiveLane)(stages[b])
    requires Requires(ReadyLane)(stages[c]) && Requires(ClosedLane)(stages[d])
    ensures Covers(stages)
  {
    IndexWhereFirst(Requires(BookedLane), stages);
    IndexWhereFirst(Requires(ActiveLane), stages);
    IndexWhereFirst(Requires(ReadyLane), stages);
    IndexWhereFirst(Requires(ClosedLane), stages);
  }

  lemma {:induction false} DefaultsCover()
    ensures Covers(DEFAULT_STAGES)
  {
    var s := DEFAULT_STAGES;
    assert s[0].category == BookedLane && s[0].required && s[0].active;
    assert s[4].category == ActiveLane && s[4].required && s[4].active;
    assert s[7].category == ReadyLane && s[7].required && s[7].active;
    assert s[8].category == ClosedLane && s[8].required && s[8].active;
    CoveredBy(s, 0, 4, 7, 8);
  }

  lemma {:induction false} DefaultsAccepted()
    ensures AcceptedList(DEFAULT_STAGES)
  {
    DefaultKeysDiffer();
    DefaultsCover();
    forall s | s in DEFAULT_STAGES ensures s.key != "" && KeyShape(s.key) {
      ShortKeysShaped();
      LongKeysShaped();
    }
  }

  /** Whatever is stored, the stages in force are an accepted list. */
  lemma {:induction false} StagesAccepted(setting: Option<seq<Raw>>)
    ensures AcceptedList(Stages(setting))
  {
    if setting.Some? && Normalize(setting.value).Success? {
      AcceptedIsSound(setting.value);
    } else {
      DefaultsAccepted();
    }
  }

  /** Saving then loading gives the saved stages back exactly when each of them is settled;
      otherwise the stored text loads as something else, or not at all and the defaults apply. */
  lemma {:induction false} SaveThenLoad(raws: seq<Raw>)
    requires Normalize(raws).Success?
    ensures var saved := Normalize(raws).value;
      Stages(Some(WrittenAll(saved))) == saved <==> forall s :: s in saved ==> Settled(s)
  {
    NormalizeTwice(raws);
    DefaultsSettled();
  }

  // ---- a list that loads differently ----

  /** A stage whose key is one letter. */
  function Letter(c: char, title: string, status: Status, order: real): Stage {
    Stage([c], title, "", status, CategoryFor(status), "x", order, true, true)
  }

  lemma {:induction false} LetterNormalised(c: char, title: string, status: Status, order: real, index: nat)
    requires 'a' <= c <= 'z'
    ensures NormalizeOne(Written(Letter(c, title, status, order)), index) ==
      Success(Letter(c, NormalizeLabel(title, [c]), status, order))
  {
    KeyFixedPoint([c]);
    assert IsSlugChar(c);
    assert Keep(IsColorChar, "x") == "x";
  }

  lemma {:induction false} LetterLabel(c: char, key: string)
    requires 'a' <= c <= 'z'
    ensures NormalizeLabel([c], key) == [c]
  {
    StripFixed(IsSpace, [c]);
  }

  /** Four lanes, the first of which has the given title. */
  function FourLanes(title: string): seq<Stage> {
    [Letter('b', title, Booked, 1.0), Letter('a', "a", InProgress, 2.0), Letter('r', "r", Ready, 3.0),
     Letter('c', "c", Closed, 4.0)]
  }

  lemma {:induction false} LaneNormalised(title: string, i: nat)
    requires i < 4
    ensures NormalizeOne(Written(FourLanes(title)[i]), i) == Success(FourLanes(NormalizeLabel(title, "b"))[i])
  {
    var lane := FourLanes(title)[i];
    var c := if i == 0 then 'b' else if i == 1 then 'a' else if i == 2 then 'r' else 'c';
    assert lane == Letter(c, lane.title, lane.status, lane.sortOrder);
    LetterNormalised(c, lane.title, lane.status, lane.sortOrder, i);
    if i > 0 {
      assert lane.title == [c];
      LetterLabel(c, [c]);
    }
  }

  /** A list whose items normalise to an accepted list is accepted as that list. */
  lemma {:induction false} EachAccepted(raws: seq<Raw>, stages: seq<Stage>)
    requires |raws| == |stages| && forall i :: 0 <= i < |raws| ==> NormalizeOne(raws[i], i) == Success(stages[i])
    requires DistinctKeys(stages) && Sorted(ByOrder(), stages) && Covers(stages)
    ensures Normalize(raws) == Success(stages)
  {
    CollectAll(NormalizeEach(raws), stages, |raws|);
    assert stages[..|raws|] == stages;
    SortFixed(ByOrder(), stages);
  }

  lemma {:induction false} FourLanesSound(title: string)
    ensures DistinctKeys(FourLanes(title)) && Sorted(ByOrder(), FourLanes(title)) && Covers(FourLanes(title))
  {
    CoveredBy(FourLanes(title), 0, 1, 2, 3);
  }

  lemma {:induction false} FourLanesAccepted(title: string)
    ensures Normalize(WrittenAll(FourLanes(title))) == Success(FourLanes(NormalizeLabel(title, "b")))
  {
    var once := FourLanes(NormalizeLabel(title, "b"));
    FourLanesSound(NormalizeLabel(title, "b"));
    forall i | 0 <= i < 4 ensures NormalizeOne(WrittenAll(FourLanes(title))[i], i) == Success(once[i]) {
      LaneNormalised(title, i);
    }
    EachAccepted(WrittenAll(FourLanes(title)), once);
  }

  /** A list with a blank title is accepted and saved, and loads with another title. */
  lemma {:induction false} BlankTitleIsLost()
    ensures Normalize(WrittenAll(FourLanes(" "))) == Success(FourLanes(""))
    ensures Stages(Some(WrittenAll(FourLanes("")))) != FourLanes("")
  {
    FourLanesAccepted(" ");
    assert Trim(" ") == "";
    SaveThenLoad(WrittenAll(FourLanes(" ")));
    assert !Settled(FourLanes("")[0]);
  }

  // ---- lookups ----

  lemma {:induction false} RequiredLane(stages: seq<Stage>, c: Category)
    requires Covers(stages) && c != CancelledLane
    ensures IndexWhere(ActiveInLane(c), stages) < |stages|
  {
    var i := match c case BookedLane => 0 case ActiveLane => 1 case ReadyLane => 2 case _ => 3;
    assert REQUIRED_CATEGORIES[i] == c;
    var k := IndexWhere(Requires(c), stages);
    IndexWhereFirst(ActiveInLane(c), stages);
    assert ActiveInLane(c)(stages[k]);
  }

  /** A default stage exists for every status but `no_show`, for which it exists exactly when some
      active stage has that status or stands in the cancelled lane. */
  lemma {:induction false} DefaultStageExists(stages: seq<Stage>, s: Status)
    requires Covers(stages)
    ensures DefaultKey(stages, s).Some? <==>
      s != NoShow || exists i :: 0 <= i < |stages| && stages[i].active &&
                                 (stages[i].status == NoShow || stages[i].category == CancelledLane)
  {
    IndexWhereFirst(ActiveWithStatus(s), stages);
    IndexWhereFirst(ActiveInLane(CategoryFor(s)), stages);
    if s != NoShow {
      RequiredLane(stages, CategoryFor(s));
    } else {
      var exact, first := IndexWhere(ActiveWithStatus(s), stages), IndexWhere(ActiveInLane(CancelledLane), stages);
      if i :| 0 <= i < |stages| && stages[i].active &&
              (stages[i].status == NoShow || stages[i].category == CancelledLane) {
        assert ActiveWithStatus(NoShow)(stages[i]) || ActiveInLane(CancelledLane)(stages[i]);
      }
    }
  }

  /** The default key resolves: looking it up gives an active stage of the status, or of its lane
      when no active stage has the status. */
  lemma {:induction false} DefaultKeyResolves(stages: seq<Stage>, s: Status)
    requires DistinctKeys(stages) && DefaultKey(stages, s).Some?
    ensures var r := ResolveStage(stages, DefaultKey(stages, s).value);
      && r.Success? && r.value.active && r.value == DefaultStage(stages, s, CategoryFor(s)).value
      && (r.value.status == s ||
          (r.value.category == CategoryFor(s) && forall x :: x in stages && x.active ==> x.status != s))
  {
    var exact, first := IndexWhere(ActiveWithStatus(s), stages), IndexWhere(ActiveInLane(CategoryFor(s)), stages);
    IndexWhereFirst(ActiveWithStatus(s), stages);
    var k := if exact < |stages| then exact else first;
    IndexWhereUnique(ActiveWithKey(stages[k].key), stages, k);
    if exact == |stages| {
      forall x | x in stages && x.active ensures x.status != s {
        var i :| 0 <= i < |stages| && stages[i] == x;
        assert !ActiveWithStatus(s)(stages[i]);
      }
    }
  }

  /** The three copies of the lookup agree on every status that their services ask for. */
  lemma {:induction false} CopiesAgree(stages: seq<Stage>, s: Status)
    ensures s != Booked && s != NoShow ==> QcDefaultKey(stages, s) == DefaultKey(stages, s)
    ensures CategoryFor(s) == ActiveLane ==> InspectionDefaultKey(stages, s) == DefaultKey(stages, s)
  {
  }

  // ---- the state machine ----

  /** `booked` is never re-entered, and `closed` and `no_show` are the only ends. */
  lemma {:induction false} TransitionShape(s: Status, t: Status)
    ensures CanTransition(s, t) ==> t != Booked
    ensures ValidTransitions(s) == {} <==> s == Closed || s == NoShow
    ensures CanTransition(s, NoShow) ==> s == Booked
  {
  }
}
