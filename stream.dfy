/** What an RSVP stream built for one trial contains: its length, where the
    two targets sit and how they look, and what fills every other slot. */
module Stream {
  import opened Stimuli

  /** Target 1 as shown: grey in identity blocks, in target 1's colour in
      colour blocks. */
  function T1Item(block: BlockType, identity: char): Item {
    Item(identity, if block == Identity then Stream else T1Col)
  }

  /** Target 2 as shown: grey in identity blocks, in target 2's colour in
      colour blocks. */
  function T2Item(block: BlockType, identity: char): Item {
    Item(identity, if block == Identity then Stream else T2Col)
  }

  /** `items` is the stream of a trial whose targets sit at `t1Time` and
      `t2Time`, where `draws[i]` is the distractor drawn for slot `i`:
      the stream ends 6 slots after position `t2Time` (counting T2's own
      slot), target 1 occupies its slot, target 2 occupies its slot unless
      target 1 already does, and every other slot holds its drawn
      distractor in the neutral style. */
  predicate IsStream(items: seq<Item>, block: BlockType, t1Time: nat, t2Time: nat,
                     t1Id: char, t2Id: char, draws: seq<char>)
  {
    && |items| == t2Time + 6
    && |draws| >= |items|
    && (t1Time < |items| ==> items[t1Time] == T1Item(block, t1Id))
    && (t2Time != t1Time ==> items[t2Time] == T2Item(block, t2Id))
    && forall i :: 0 <= i < |items| && i != t1Time && i != t2Time ==> items[i] == Item(draws[i], Stream)
  }

  /** The description above leaves no freedom: given the targets and the
      draws, there is exactly one stream it admits. */
  lemma StreamIsDetermined(a: seq<Item>, b: seq<Item>, block: BlockType, t1Time: nat, t2Time: nat,
                           t1Id: char, t2Id: char, draws: seq<char>)
    requires IsStream(a, block, t1Time, t2Time, t1Id, t2Id, draws)
    requires IsStream(b, block, t1Time, t2Time, t1Id, t2Id, draws)
    ensures a == b
  {
  }

  /** The stream has `t2Time + 6` items, so target 2 is followed by exactly
      five distractors (not six), all in the neutral style. */
  lemma ItemsAfterT2(items: seq<Item>, block: BlockType, t1Time: nat, t2Time: nat,
                     t1Id: char, t2Id: char, draws: seq<char>)
    requires IsStream(items, block, t1Time, t2Time, t1Id, t2Id, draws)
    requires t1Time <= t2Time
    ensures |items[t2Time + 1..]| == 5
    ensures forall i :: t2Time < i < |items| ==> items[i] == Item(draws[i], Stream)
  {
  }

  /** An identity-block stream whose targets are digits and whose draws are
      letters: every item is grey, every distractor is a letter other than O,
      and a slot shows a digit exactly when it is one of the two target
      slots, so no distractor can pass for a target. */
  lemma IdentityStreamShape(items: seq<Item>, t1Time: nat, t2Time: nat,
                            t1Id: char, t2Id: char, draws: seq<char>)
    requires IsStream(items, Identity, t1Time, t2Time, t1Id, t2Id, draws)
    requires DrawnFrom(draws, Letters)
    requires t1Id in Numbers && t2Id in Numbers
    ensures forall i :: 0 <= i < |items| ==> items[i].style == Stream
    ensures forall i :: 0 <= i < |items| && i != t1Time && i != t2Time ==>
              items[i].symbol in Letters && items[i].symbol != 'O'
    ensures forall i :: 0 <= i < |items| ==>
              (IsDigit(items[i].symbol) <==> i == t1Time || i == t2Time)
  {
  }

  /** A colour-block stream whose draws are digits: every distractor is a
      digit 1-9 in the neutral style, target 1 wears its colour style and
      target 2 its own, and a slot is coloured exactly when it is one of the
      two target slots. */
  lemma ColourStreamShape(items: seq<Item>, t1Time: nat, t2Time: nat,
                          t1Id: char, t2Id: char, draws: seq<char>)
    requires IsStream(items, Colour, t1Time, t2Time, t1Id, t2Id, draws)
    requires DrawnFrom(draws, Numbers)
    ensures forall i :: 0 <= i < |items| && i != t1Time && i != t2Time ==>
              items[i].symbol in Numbers && items[i].style == Stream
    ensures t1Time < |items| ==> items[t1Time].style == T1Col
    ensures t2Time != t1Time ==> items[t2Time].style == T2Col
    ensures forall i :: 0 <= i < |items| ==>
              (items[i].style != Stream <==> i == t1Time || i == t2Time)
  {
  }
}
