/** The stage normaliser told from what it is sent: which texts become which keys, what every field of
    a stage is made from, and which lists are accepted. */
module WorkflowFields {
  import opened Wrappers
  import opened Sequences
  import opened Sorting
  import opened Text
  import opened JobStatus
  import opened Workflow
  import opened WorkflowProofs

  // ---- characters ----

  const SMALL_LETTERS: set<char> := {
    'a', 'b', 'c', 'd', 'e', 'f', 'g', 'h', 'i', 'j', 'k', 'l', 'm', 'n', 'o', 'p', 'q', 'r', 's', 't', 'u', 'v', 'w',
    'x', 'y', 'z'
  }

  const CAPITALS: set<char> := {
    'A', 'B', 'C', 'D', 'E', 'F', 'G', 'H', 'I', 'J', 'K', 'L', 'M', 'N', 'O', 'P', 'Q', 'R', 'S', 'T', 'U', 'V', 'W',
    'X', 'Y', 'Z'
  }

  const DIGITS: set<char> := { '0', '1', '2', '3', '4', '5', '6', '7', '8', '9' }

  lemma {:induction false} RangesExact(c: char)
    ensures 'a' <= c <= 'z' <==> c in SMALL_LETTERS
    ensures 'A' <= c <= 'Z' <==> c in CAPITALS
    ensures '0' <= c <= '9' <==> c in DIGITS
  {
  }

  /** Keys are written in small letters and digits; colours in capitals, underscores and hyphens as well. */
  lemma {:induction false} CharactersExact(c: char)
    ensures IsKeyChar(c) <==> c in SMALL_LETTERS + DIGITS
    ensures IsColorChar(c) <==> c in SMALL_LETTERS + CAPITALS + DIGITS + {'_', '-'}
  {
    RangesExact(c);
    var plain := SMALL_LETTERS + DIGITS;
    var colored := SMALL_LETTERS + CAPITALS + DIGITS + {'_', '-'};
    assert c in plain <==> c in SMALL_LETTERS || c in DIGITS;
    assert c in colored <==> c in SMALL_LETTERS || c in CAPITALS || c in DIGITS || c == '_' || c == '-';
  }

  /** Capitals and small letters correspond one to one, and no other character changes. */
  lemma {:induction false} CaseExact(c: char)
    ensures if c in CAPITALS then Lower(c) in SMALL_LETTERS && Upper(Lower(c)) == c else Lower(c) == c
    ensures if c in SMALL_LETTERS then Upper(c) in CAPITALS && Lower(Upper(c)) == c else Upper(c) == c
  {
  }

  // ---- keys ----

  /** The letters and digits of a text, in lower case. */
  function Letters(s: string): string { Keep(IsKeyChar, LowerAll(s)) }

  lemma {:induction false} LettersAppend(a: string, b: string)
    ensures Letters(a + b) == Letters(a) + Letters(b)
  {
    assert LowerAll(a + b) == LowerAll(a) + LowerAll(b);
    KeepAppend(IsKeyChar, LowerAll(a), LowerAll(b));
  }

  lemma {:induction false} NoLetters(s: string)
    requires forall i :: 0 <= i < |s| ==> IsSpace(s[i])
    ensures Letters(s) == ""
  {
    forall c | c in LowerAll(s) ensures !IsKeyChar(c) {
      var i :| 0 <= i < |s| && LowerAll(s)[i] == c;
    }
    KeepNone(IsKeyChar, LowerAll(s));
  }

  lemma {:induction false} TrimKeepsLetters(s: string)
    ensures Letters(Trim(s)) == Letters(s)
  {
    var i, j := StripSlice(IsSpace, s);
    assert s == s[..i] + (s[i..j] + s[j..]);
    LettersAppend(s[..i], s[i..j] + s[j..]);
    LettersAppend(s[i..j], s[j..]);
    NoLetters(s[..i]);
    NoLetters(s[j..]);
  }

  lemma {:induction false} SquashKeepsLetters(s: string, inRun: bool)
    ensures Keep(IsKeyChar, Squash(s, inRun)) == Keep(IsKeyChar, s)
    decreases s
  {
    if s == [] {
    } else {
      var rest := s[1..];
      SquashKeepsLetters(rest, !IsKeyChar(s[0]));
      assert s == [s[0]] + rest;
      KeepCons(IsKeyChar, s[0], rest);
      KeepCons(IsKeyChar, s[0], Squash(rest, false));
      KeepCons(IsKeyChar, '_', Squash(rest, true));
    }
  }

  lemma {:induction false} UnderscoresAreNoLetters(s: string)
    ensures Keep(IsKeyChar, Strip(IsUnderscore, s)) == Keep(IsKeyChar, s)
  {
    var i, j := StripSlice(IsUnderscore, s);
    assert s == s[..i] + (s[i..j] + s[j..]);
    KeepAppend(IsKeyChar, s[..i], s[i..j] + s[j..]);
    KeepAppend(IsKeyChar, s[i..j], s[j..]);
    KeepNone(IsKeyChar, s[..i]);
    KeepNone(IsKeyChar, s[j..]);
  }

  /** A key of fewer than 80 characters has all letters and digits of its text, in order and in lower
      case; a longer one has those at its beginning. */
  lemma {:induction false} KeyHasLetters(value: string)
    ensures Keep(IsKeyChar, NormalizeKey(value)) <= Letters(value)
    ensures |NormalizeKey(value)| < 80 ==> Keep(IsKeyChar, NormalizeKey(value)) == Letters(value)
  {
    var squashed := Squash(LowerAll(Trim(value)), false);
    var stripped := Strip(IsUnderscore, squashed);
    TrimKeepsLetters(value);
    SquashKeepsLetters(LowerAll(Trim(value)), false);
    UnderscoresAreNoLetters(squashed);
    var key := NormalizeKey(value);
    assert stripped == key + stripped[|key|..];
    KeepAppend(IsKeyChar, key, stripped[|key|..]);
  }

  lemma {:induction false} LowerUpper(s: string)
    ensures LowerAll(UpperAll(s)) == LowerAll(s)
  {
  }

  lemma {:induction false} LowerDropLeft(s: string)
    ensures DropLeft(IsSpace, LowerAll(s)) == LowerAll(DropLeft(IsSpace, s))
  {
    if s == [] {
    } else {
      assert LowerAll(s)[1..] == LowerAll(s[1..]);
      LowerDropLeft(s[1..]);
    }
  }

  lemma {:induction false} LowerDropRight(s: string)
    ensures DropRight(IsSpace, LowerAll(s)) == LowerAll(DropRight(IsSpace, s))
  {
    if s == [] {
    } else {
      assert LowerAll(s)[..|s| - 1] == LowerAll(s[..|s| - 1]);
      LowerDropRight(s[..|s| - 1]);
    }
  }

  lemma {:induction false} LowerTrim(s: string)
    ensures LowerAll(Trim(s)) == Trim(LowerAll(s))
  {
    LowerDropLeft(s);
    LowerDropRight(DropLeft(IsSpace, s));
  }

  /** Keys do not depend on capital letters. */
  lemma {:induction false} KeyIgnoresCase(a: string, b: string)
    requires UpperAll(a) == UpperAll(b)
    ensures NormalizeKey(a) == NormalizeKey(b)
  {
    LowerUpper(a);
    LowerUpper(b);
    LowerTrim(a);
    LowerTrim(b);
  }

  lemma {:induction false} SquashWord(word: string, rest: string, inRun: bool)
    requires forall i :: 0 <= i < |word| ==> IsKeyChar(word[i])
    ensures Squash(word + rest, inRun) == word + Squash(rest, inRun && word == "")
    decreases word
  {
    var all := word + rest;
    if word == "" {
      assert all == rest;
    } else {
      assert all[1..] == word[1..] + rest && all[0] == word[0];
      SquashWord(word[1..], rest, false);
      assert [word[0]] + (word[1..] + Squash(rest, false)) == word + Squash(rest, false);
    }
  }

  lemma {:induction false} SquashGap(gap: string, rest: string)
    requires forall i :: 0 <= i < |gap| ==> !IsKeyChar(gap[i])
    ensures Squash(gap + rest, true) == Squash(rest, true)
    decreases gap
  {
    var all := gap + rest;
    if gap == "" {
      assert all == rest;
    } else {
      assert all[1..] == gap[1..] + rest && all[0] == gap[0];
      SquashGap(gap[1..], rest);
    }
  }

  /** Whatever stands between two words becomes one underscore. */
  lemma {:induction false} WordsAreJoined(word: string, gap: string, rest: string)
    requires forall i :: 0 <= i < |word| ==> IsKeyChar(word[i])
    requires gap != "" && forall i :: 0 <= i < |gap| ==> !IsKeyChar(gap[i])
    requires rest != "" && IsKeyChar(rest[0])
    ensures Squash(word + (gap + rest), false) == word + ("_" + Squash(rest, false))
  {
    SquashWord(word, gap + rest, false);
    assert (gap + rest)[0] == gap[0] && (gap + rest)[1..] == gap[1..] + rest;
    SquashGap(gap[1..], rest);
  }

  // ---- fields ----

  /** The first `n` characters. */
  predicate IsCut(n: nat, s: string, t: string) { t <= s && |t| == if |s| <= n then |s| else n }

  predicate IsLane(s: Status, c: Category) {
    match c
    case BookedLane => s == Booked
    case ReadyLane => s == Ready
    case ClosedLane => s == Closed
    case CancelledLane => s == NoShow
    case ActiveLane => s in {Checking, EstimateSent, Approved, InProgress, WaitingParts, QualityCheck}
  }

  predicate HasDefault(raw: Raw, s: Stage, index: nat) {
    && (raw.status.Missing? ==> s.status == InProgress)
    && (raw.category.Missing? ==> IsLane(s.status, s.category))
    && (raw.sortOrder.None? ==> s.sortOrder == (10 * (index + 1)) as real)
  }

  predicate KeepsGiven(raw: Raw, s: Stage) {
    && (raw.status.Named? ==> s.status == raw.status.value)
    && (raw.category.Named? ==> s.category == raw.category.value)
    && (raw.sortOrder.Some? ==> s.sortOrder == raw.sortOrder.value)
    && s.required == raw.required && s.active == raw.active
  }

  /** The key is made from the key that is sent, or from the title; the label is the title, or the key
      with blanks for its underscores; both and the description are cut. */
  predicate HasTexts(raw: Raw, s: Stage) {
    && s.key == NormalizeKey(if raw.key != "" then raw.key else raw.title)
    && IsCut(80, Trim(if raw.title != "" then raw.title else Spaced(s.key)), s.title)
    && IsCut(240, raw.description, s.description)
    && var kept := Keep(IsColorChar, if raw.color != "" then raw.color else "slate");
       if kept == "" then s.color == "slate" else IsCut(24, kept, s.color)
  }

  lemma {:induction false} SpacedExact(key: string)
    ensures forall i :: 0 <= i < |key| ==>
      (key[i] == '_' ==> Spaced(key)[i] == ' ') && (key[i] != '_' ==> Spaced(key)[i] == key[i])
  {
  }

  lemma {:induction false} ColorExact(color: string)
    ensures var kept := Keep(IsColorChar, if color != "" then color else "slate");
      if kept == "" then NormalizeColor(color) == "slate" else IsCut(24, kept, NormalizeColor(color))
  {
  }

  /** A stage is rejected exactly when no key is left or its status or category is not on the list; an
      accepted one keeps what it was sent and has the defaults for the rest. */
  lemma {:induction false} StageExact(raw: Raw, index: nat)
    ensures NormalizeOne(raw, index).Success? <==>
      NormalizeKey(if raw.key != "" then raw.key else raw.title) != "" && !raw.status.Unknown? && !raw.category.Unknown?
    ensures NormalizeOne(raw, index).Success? ==>
      var s := NormalizeOne(raw, index).value; HasTexts(raw, s) && KeepsGiven(raw, s) && HasDefault(raw, s, index)
  {
    ColorExact(raw.color);
  }

  // ---- lists ----

  predicate HasRequired(stages: seq<Stage>, c: Category) {
    exists i :: 0 <= i < |stages| && stages[i].category == c && stages[i].required && stages[i].active
  }

  lemma {:induction false} RequiredExact(stages: seq<Stage>, c: Category)
    ensures IndexWhere(Requires(c), stages) < |stages| <==> HasRequired(stages, c)
  {
    IndexWhereFirst(Requires(c), stages);
    if i :| 0 <= i < |stages| && stages[i].category == c && stages[i].required && stages[i].active {
      assert Requires(c)(stages[i]);
    }
  }

  /** There is a required active stage of each lane but the cancelled one. */
  ghost predicate HasEveryLane(stages: seq<Stage>) { forall c :: c != CancelledLane ==> HasRequired(stages, c) }

  lemma {:induction false} CoversExact(stages: seq<Stage>)
    ensures Covers(stages) <==> HasEveryLane(stages)
  {
    forall c ensures IndexWhere(Requires(c), stages) < |stages| <==> HasRequired(stages, c) {
      RequiredExact(stages, c);
    }
    assert REQUIRED_CATEGORIES[0] == BookedLane && REQUIRED_CATEGORIES[1] == ActiveLane;
    assert REQUIRED_CATEGORIES[2] == ReadyLane && REQUIRED_CATEGORIES[3] == ClosedLane;
  }

  lemma {:induction false} SameRequired(a: seq<Stage>, b: seq<Stage>, c: Category)
    requires multiset(a) == multiset(b) && HasRequired(a, c)
    ensures HasRequired(b, c)
  {
    var i :| 0 <= i < |a| && a[i].category == c && a[i].required && a[i].active;
    assert a[i] in multiset(b);
    var j :| 0 <= j < |b| && b[j] == a[i];
  }

  /** Each item is normalised at its position to the stage at that position. */
  ghost predicate NormalisesTo(raws: seq<Raw>, stages: seq<Stage>) {
    |raws| == |stages| && forall i :: 0 <= i < |raws| ==> NormalizeOne(raws[i], i) == Success(stages[i])
  }

  lemma {:induction false} CollectedExact(raws: seq<Raw>, stages: seq<Stage>)
    ensures Collect(NormalizeEach(raws), |raws|) == Success(stages) <==>
      NormalisesTo(raws, stages) && DistinctKeys(stages)
  {
    var each := NormalizeEach(raws);
    if NormalisesTo(raws, stages) && DistinctKeys(stages) {
      assert stages[..|raws|] == stages;
      CollectAll(each, stages, |raws|);
    } else if Collect(each, |raws|).Success? {
      CollectExact(each, |raws|);
    }
  }

  /** A list is accepted exactly when every item is, no key repeats, and every lane but the cancelled one
      has a required active stage; its stages come out in order, and equal orders as they were sent. */
  lemma {:induction false} ListExact(raws: seq<Raw>)
    ensures Normalize(raws).Success? <==>
      exists stages :: NormalisesTo(raws, stages) && DistinctKeys(stages) && HasEveryLane(stages)
    ensures Normalize(raws).Success? ==>
      exists stages :: NormalisesTo(raws, stages) && Normalize(raws).value == Sort(ByOrder(), stages)
  {
    var collected := Collect(NormalizeEach(raws), |raws|);
    if collected.Success? {
      var stages := collected.value;
      var sorted := Sort(ByOrder(), stages);
      CollectedExact(raws, stages);
      SortSorted(ByOrder(), stages);
      CoversExact(sorted);
      forall c ensures HasRequired(sorted, c) <==> HasRequired(stages, c) {
        if HasRequired(sorted, c) {
          SameRequired(sorted, stages, c);
        }
        if HasRequired(stages, c) {
          SameRequired(stages, sorted, c);
        }
      }
    }
    if stages :| NormalisesTo(raws, stages) && DistinctKeys(stages) && HasEveryLane(stages) {
      CollectedExact(raws, stages);
    }
  }

  // ---- lookups ----

  /** A key resolves exactly when an active stage has it, and with distinct keys to that stage. */
  lemma {:induction false} ResolveExact(stages: seq<Stage>, key: string, s: Stage)
    requires DistinctKeys(stages)
    ensures ResolveStage(stages, key) == Success(s) <==> s in stages && s.key == key && s.active
  {
    var k := IndexWhere(ActiveWithKey(key), stages);
    IndexWhereFirst(ActiveWithKey(key), stages);
    if s in stages && s.key == key && s.active {
      var i :| 0 <= i < |stages| && stages[i] == s;
      assert ActiveWithKey(key)(stages[i]);
    }
  }
}
