/** The money columns of an estimate line never drift: whatever a client sends, every stored total
    and tax amount is the one that the stored quantity, price, discount and rate give. */
module QuoteMoney {
  import opened Wrappers
  import opened Sequences
  import opened Quotes

  /** The total is quantity times price less the discount, and the tax a percentage of the total. */
  predicate PricedRight(l: Line) {
    && l.lineTotal == l.quantity * l.unitPrice * (1.0 - l.discountPct / 100.0)
    && l.taxAmount == match l.taxRatePct case Some(rate) => l.lineTotal * (rate / 100.0) case None => 0.0
  }

  predicate Computed(l: Line) {
    && l.lineTotal == LineTotal(l.quantity, l.unitPrice, l.discountPct)
    && l.taxAmount == TaxAmount(l.lineTotal, Or(l.taxRatePct, 0.0))
  }

  lemma {:induction false} ComputedIsRight(l: Line)
    ensures Computed(l) <==> PricedRight(l)
  {
    assert l.taxRatePct.None? ==> TaxAmount(l.lineTotal, 0.0) == 0.0;
  }

  ghost predicate AllComputed(lines: seq<Line>) { forall i :: 0 <= i < |lines| ==> Computed(lines[i]) }


  lemma {:induction false} KeptComputed(p: Line -> bool, lines: seq<Line>)
    requires AllComputed(lines)
    ensures AllComputed(Keep(p, lines))
  {
    forall i | 0 <= i < |Keep(p, lines)| ensures Computed(Keep(p, lines)[i]) {
      KeepMember(p, lines, Keep(p, lines)[i]);
    }
  }

  lemma {:induction false} SavedComputed(lines: seq<Line>, existing: seq<Line>, s: Save, i: nat)
    requires i <= |s.incoming| && AllComputed(lines) && SaveFrom(lines, existing, s, i).Success?
    ensures AllComputed(SaveFrom(lines, existing, s, i).value)
    decreases |s.incoming| - i
  {
    if i < |s.incoming| {
      assert Computed(Row(existing, s, i));
      SavedComputed(SaveOne(lines, existing, s, i).value, existing, s, i + 1);
    }
  }

  lemma {:induction false} RetiredComputed(q: Quotes, lines: seq<Line>, stale: seq<Line>, position: nat)
    requires AllComputed(lines)
    ensures AllComputed(RetireAll(q, lines, stale, position))
    decreases stale
  {
    if stale == [] {
    } else {
      var k := IndexWhere(LineIs(stale[0].id), lines);
      if Referenced(q, stale[0].id) {
        RetiredComputed(q, if k < |lines| then lines[k := Detached(lines[k], position)] else lines, stale[1..],
                      position + 1);
      } else {
        KeptComputed(LineIsNot(stale[0].id), lines);
        RetiredComputed(q, Keep(LineIsNot(stale[0].id), lines), stale[1..], position);
      }
    }
  }

  lemma {:induction false} RecordedLines(q: Quotes, token: Token, items: seq<Item>, now: int)
    requires RecordAll(q, token, items, now).Success?
    ensures RecordAll(q, token, items, now).value.lines == q.lines
    decreases items
  {
    if items == [] {
    } else {
      RecordedLines(RecordOne(q, token, items[0], now).value, token, items[1..], now);
    }
  }

  lemma {:induction false} BulkComputed(q: Quotes, s: Save)
    requires AllComputed(q.lines) && BulkReplace(q, s).Success?
    ensures AllComputed(BulkReplace(q, s).value.lines)
  {
    var existing := Keep(OnJob(s.job), q.lines);
    SavedComputed(q.lines, existing, s, 0);
    RetiredComputed(q, SaveFrom(q.lines, existing, s, 0).value, Keep(Stale(s.incoming), existing), |s.incoming|);
  }

  /** The calls that add one line. */
  lemma {:induction false} AddedComputed(q: Quotes, call: Call)
    requires call.Create? || call.AddJobPart? || call.BookFollowUp?
    requires AllComputed(q.lines) && Apply(q, call).Success?
    ensures AllComputed(Apply(q, call).value.lines)
  {
  }

  lemma {:induction false} StepComputed(q: Quotes, call: Call)
    requires AllComputed(q.lines)
    ensures AllComputed(Step(q, call).lines)
  {
    if Apply(q, call).Success? {
      match call
      case Create(_, _, _, _, _) => AddedComputed(q, call);
      case AddJobPart(_, _, _, _, _, _, _, _, _) => AddedComputed(q, call);
      case BookFollowUp(_, _, _, _) => AddedComputed(q, call);
      case Update(id, dto) => assert Computed(Patched(q.lines[IndexWhere(LineIs(id), q.lines)], dto));
      case Remove(id) => KeptComputed(LineIsNot(id), q.lines);
      case Bulk(save) => BulkComputed(q, save);
      case Submit(tokenId, items, now) =>
        RecordedLines(q, q.tokens[IndexWhere(TokenIs(tokenId), q.tokens)], items, now);
      case _ =>
    }
  }

  lemma {:induction false} RunComputed(q: Quotes, calls: seq<Call>)
    requires AllComputed(q.lines)
    ensures AllComputed(Run(q, calls).lines)
    decreases calls
  {
    if calls == [] {
    } else {
      StepComputed(q, calls[0]);
      RunComputed(Step(q, calls[0]), calls[1..]);
    }
  }

  /** In every run every stored line is priced right. */
  lemma {:induction false} RunPriced(q: Quotes, calls: seq<Call>)
    requires forall i :: 0 <= i < |q.lines| ==> PricedRight(q.lines[i])
    ensures forall i :: 0 <= i < |Run(q, calls).lines| ==> PricedRight(Run(q, calls).lines[i])
  {
    forall i | 0 <= i < |q.lines| ensures Computed(q.lines[i]) {
      ComputedIsRight(q.lines[i]);
    }
    RunComputed(q, calls);
    forall i | 0 <= i < |Run(q, calls).lines| ensures PricedRight(Run(q, calls).lines[i]) {
      ComputedIsRight(Run(q, calls).lines[i]);
    }
  }
}
