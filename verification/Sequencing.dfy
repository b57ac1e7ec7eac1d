/** Per-symbol sequence classification. */
module Sequencing {
  import opened Events

  datatype Decision = Next | Gap | Stale

  /** RAW mode detects gaps; aggregated mode accepts forward jumps but still rejects stale events. */
  function Classify(last: Option<int>, seqNo: int, detectGap: bool): Decision {
    if last.None? then Next
    else if seqNo <= last.value then Stale
    else if detectGap && seqNo != last.value + 1 then Gap
    else Next
  }

  function Baseline(last: Option<int>, seqNo: int, detectGap: bool): Option<int> {
    if Classify(last, seqNo, detectGap) == Next then Some(seqNo) else last
  }

  function OnSymbol(events: seq<MarketEvent>, y: Symbol): seq<MarketEvent> {
    if events == [] then []
    else
      var front, e := OnSymbol(events[..|events| - 1], y), events[|events| - 1];
      if e.symbol == y then front + [e] else front
  }

  lemma {:induction false} OnSymbolOfAppend(a: seq<MarketEvent>, b: seq<MarketEvent>, y: Symbol)
    ensures OnSymbol(a + b, y) == OnSymbol(a, y) + OnSymbol(b, y)
  {
    if b == [] {
      assert a + b == a;
    } else {
      var front := b[..|b| - 1];
      OnSymbolOfAppend(a, front, y);
      assert (a + b)[..|a + b| - 1] == a + front;
    }
  }

  lemma OnSymbolOfOne(e: MarketEvent, y: Symbol)
    ensures OnSymbol([e], y) == if e.symbol == y then [e] else []
  {
    assert [e][..0] == [];
  }

  /** Where a stretch of one symbol's events leaves the baseline, and the last event accepted. */
  datatype Progress = Progress(last: Option<int>, accepted: Option<MarketEvent>)

  function Absorb(p: Progress, events: seq<MarketEvent>, detectGap: bool): Progress {
    if events == [] then p
    else
      var before, e := Absorb(p, events[..|events| - 1], detectGap), events[|events| - 1];
      if Classify(before.last, e.seqNo, detectGap) == Next then Progress(Some(e.seqNo), Some(e)) else before
  }

  ghost predicate NeverDecreases(events: seq<MarketEvent>) {
    forall i, j | 0 <= i < j < |events| :: events[i].seqNo <= events[j].seqNo
  }

  ghost predicate RepeatsAgree(events: seq<MarketEvent>) {
    forall i, j | 0 <= i < j < |events| :: events[i].seqNo == events[j].seqNo ==> events[i] == events[j]
  }

  /** With forward jumps accepted, only the last event of an ordered stretch matters. */
  lemma {:induction false} OnlyTheLastMatters(p: Progress, events: seq<MarketEvent>)
    requires NeverDecreases(events) && events != []
    ensures var after, final := Absorb(p, events, false), events[|events| - 1];
      && after.last == Some(if p.last.Some? && final.seqNo <= p.last.value then p.last.value else final.seqNo)
      && (p.last.Some? && final.seqNo <= p.last.value ==> after.accepted == p.accepted)
      && (RepeatsAgree(events) && (p.last.None? || p.last.value < final.seqNo) ==> after.accepted == Some(final))
  {
    var front := events[..|events| - 1];
    if front == [] {
      assert Absorb(p, front, false) == p;
    } else {
      OnlyTheLastMatters(p, front);
    }
  }

  /** The first event with a given number. */
  function FirstAt(events: seq<MarketEvent>, seqNo: int): Option<MarketEvent> {
    if events == [] then None
    else
      var before, e := FirstAt(events[..|events| - 1], seqNo), events[|events| - 1];
      if before.Some? then before else if e.seqNo == seqNo then Some(e) else None
  }

  lemma {:induction false} FirstAtIsOne(events: seq<MarketEvent>, seqNo: int)
    ensures FirstAt(events, seqNo).Some? ==>
      FirstAt(events, seqNo).value in events && FirstAt(events, seqNo).value.seqNo == seqNo
    ensures FirstAt(events, seqNo).None? ==> forall e | e in events :: e.seqNo != seqNo
  {
    if events != [] {
      FirstAtIsOne(events[..|events| - 1], seqNo);
    }
  }

  /** The event accepted last is the first one that carries the highest number. */
  lemma {:induction false} AcceptedIsFirst(p: Progress, events: seq<MarketEvent>)
    requires NeverDecreases(events) && events != []
    requires p.last.None? || p.last.value < events[|events| - 1].seqNo
    ensures var top := events[|events| - 1].seqNo;
      Absorb(p, events, false) == Progress(Some(top), FirstAt(events, top)) && FirstAt(events, top).Some?
  {
    var front, final := events[..|events| - 1], events[|events| - 1];
    FirstAtIsOne(front, final.seqNo);
    if front == [] {
      assert Absorb(p, front, false) == p;
    } else {
      var e := front[|front| - 1];
      assert NeverDecreases(front);
      if p.last.None? || p.last.value < e.seqNo {
        AcceptedIsFirst(p, front);
        if e.seqNo < final.seqNo {
          assert forall x | x in front :: x.seqNo <= e.seqNo;
        }
      } else {
        OnlyTheLastMatters(p, front);
        assert forall x | x in front :: x.seqNo <= e.seqNo;
      }
    }
  }
}
