/** The FAQ accordion: at most one of the four answers is open; clicking a
    question opens it, or closes it if it was the open one. */
module Faq {
  import opened Wrappers

  /** The number of questions the component renders. */
  const ItemCount: nat := 4

  /** `setOpenIndex(openIndex === index ? null : index)` as a transition. */
  function Toggle(open: Option<nat>, index: nat): (next: Option<nat>)
    ensures open == Some(index) ==> next == None
    ensures open != Some(index) ==> next == Some(index)
  {
    if open == Some(index) then None else Some(index)
  }

  /** Answer `index` is rendered. */
  function AnswerVisible(open: Option<nat>, index: nat): (visible: bool)
    ensures visible ==> open.Some? && open.value == index
    ensures open.None? ==> !visible
  {
    open == Some(index)
  }

  /** Question `index`'s chevron carries the rotation class. */
  function ChevronRotated(open: Option<nat>, index: nat): (rotated: bool)
    ensures rotated <==> AnswerVisible(open, index)
  {
    open == Some(index)
  }

  /** An open index, when present, names a rendered row. */
  predicate ValidOpen(open: Option<nat>) {
    open.Some? ==> open.value < ItemCount
  }

  /** The state after a sequence of clicks, oldest first. */
  function AfterClicks(open: Option<nat>, clicks: seq<nat>): Option<nat>
    decreases |clicks|
  {
    if clicks == [] then open else AfterClicks(Toggle(open, clicks[0]), clicks[1..])
  }

  /** At most one answer is visible, and a chevron is rotated exactly when
      its own answer is. */
  lemma VisibilityRules(open: Option<nat>, i: nat, j: nat)
    ensures AnswerVisible(open, i) && AnswerVisible(open, j) ==> i == j
    ensures ChevronRotated(open, i) <==> AnswerVisible(open, i)
  {
  }

  /** Clicking twice on the same question: an answer that was open is open
      again; otherwise nothing is open. */
  lemma DoubleClick(open: Option<nat>, index: nat)
    ensures Toggle(Toggle(open, index), index) == (if open == Some(index) then open else None)
  {
  }

  /** After clicking `index`, answer `index` is visible iff it was not before,
      and every other answer is hidden. */
  lemma ClickEffect(open: Option<nat>, index: nat, other: nat)
    requires other != index
    ensures AnswerVisible(Toggle(open, index), index) <==> !AnswerVisible(open, index)
    ensures !AnswerVisible(Toggle(open, index), other)
  {
  }

  /** Clicks that come from rendered rows keep the open index in range, from
      any valid starting state. */
  lemma {:induction false} ClicksStayInRange(open: Option<nat>, clicks: seq<nat>)
    requires ValidOpen(open)
    requires forall k :: 0 <= k < |clicks| ==> clicks[k] < ItemCount
    ensures ValidOpen(AfterClicks(open, clicks))
    decreases |clicks|
  {
    if clicks != [] {
      ClicksStayInRange(Toggle(open, clicks[0]), clicks[1..]);
    }
  }

  /** The last click decides: after a non-empty run of clicks, the open
      answer, if any, is the one clicked last. */
  lemma {:induction false} LastClickDecides(open: Option<nat>, clicks: seq<nat>)
    requires clicks != []
    ensures AfterClicks(open, clicks) == None || AfterClicks(open, clicks) == Some(clicks[|clicks| - 1])
    decreases |clicks|
  {
    if |clicks| > 1 {
      LastClickDecides(Toggle(open, clicks[0]), clicks[1..]);
    }
  }

  /** The component's single state field. */
  class Accordion {
    var openIndex: Option<nat>

    /** `useState<number | null>(null)`: nothing open. */
    constructor ()
      ensures openIndex == None
      ensures forall i :: !IsVisible(i)
    {
      openIndex := None;
    }

    predicate Valid()
      reads this
    {
      ValidOpen(openIndex)
    }

    predicate IsVisible(index: nat)
      reads this
    {
      AnswerVisible(openIndex, index)
    }

    predicate IsRotated(index: nat)
      reads this
    {
      ChevronRotated(openIndex, index)
    }

    /** The click handler of row `index`; rows exist only for 0..3. */
    method Click(index: nat)
      requires Valid() && index < ItemCount
      modifies this
      ensures Valid()
      ensures openIndex == Toggle(old(openIndex), index)
      ensures IsVisible(index) <==> !old(IsVisible(index))
      ensures forall i :: i != index ==> !IsVisible(i)
      ensures forall i :: IsRotated(i) <==> IsVisible(i)
    {
      openIndex := if openIndex == Some(index) then None else Some(index);
    }
  }

  /** Replaying clicks on a freshly mounted accordion gives the state the
      transition function predicts, which is always in range. */
  method Replay(clicks: seq<nat>) returns (open: Option<nat>)
    requires forall k :: 0 <= k < |clicks| ==> clicks[k] < ItemCount
    ensures open == AfterClicks(None, clicks)
    ensures ValidOpen(open)
  {
    var faq := new Accordion();
    var i := 0;
    while i < |clicks|
      invariant 0 <= i <= |clicks|
      invariant faq.Valid()
      invariant AfterClicks(faq.openIndex, clicks[i..]) == AfterClicks(None, clicks)
      decreases |clicks| - i
    {
      assert clicks[i..] == [clicks[i]] + clicks[i + 1..];
      faq.Click(clicks[i]);
      i := i + 1;
    }
    open := faq.openIndex;
    ClicksStayInRange(None, clicks);
  }
}
