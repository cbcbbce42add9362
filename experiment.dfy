/** The experiment object of the attentional-blink task: the per-trial target
    parameters it draws, the RSVP stream it builds from them, and the block
    type it switches between blocks. Every random draw of the experiment is
    an input here: a value already drawn from its pool, or for the
    rejection loops a finite supply of successive draws. */
module Experiment {
  import opened Stimuli
  import opened Sampling
  import opened Stream
  import opened Blocks

  /** `Colour` stands for the colours picked off the colour wheel; only
      their equality matters here. */
  class ABColourNoSwitch<Colour(==,0)> {
    var blockType: BlockType
    /** Number of stream positions from target 1 to target 2; set by the host
        from the trial factors before each trial. */
    var lag: nat
    var t1Identity: char
    var t2Identity: char
    var t1Colour: Colour
    var t2Colour: Colour
    var t1Time: nat
    var t2Time: nat
    var rsvpStream: seq<Item>

    /** The experiment starts in an identity block. */
    constructor Setup()
      ensures blockType == Identity
    {
      blockType := Identity;
    }

    /** Builds the stream for a block of type `block` from the current target
        parameters; `draws[i]` is the distractor drawn for slot `i` (draws at
        the target slots go unused). */
    method PrepStream(block: BlockType, draws: seq<char>) returns (items: seq<Item>)
      requires |draws| >= t2Time + 6
      requires DrawnFrom(draws, Pool(block))
      ensures IsStream(items, block, t1Time, t2Time, t1Identity, t2Identity, draws)
      ensures forall i :: 0 <= i < |items| && i != t1Time && i != t2Time ==>
                items[i].symbol in Pool(block) && items[i].style == Stream
    {
      items := [];
      for i := 0 to t2Time + 6
        invariant |items| == i
        invariant t1Time < i ==> items[t1Time] == T1Item(block, t1Identity)
        invariant t2Time != t1Time && t2Time < i ==> items[t2Time] == T2Item(block, t2Identity)
        invariant forall j :: 0 <= j < i && j != t1Time && j != t2Time ==> items[j] == Item(draws[j], Stream)
      {
        if i == t1Time {
          items := items + [T1Item(block, t1Identity)];
        } else if i == t2Time {
          items := items + [T2Item(block, t2Identity)];
        } else {
          items := items + [Item(draws[i], Stream)];
        }
      }
    }

    /** Draws the targets of a trial and builds its stream.
        `t1TimeDraw` is the draw from range(5); `t2IdentityDraws` and
        `t2ColourDraws` are target 2's first draw followed by its redraws,
        consumed while target 2 still equals target 1. `ok` is false only
        when one of these supplies runs out first; the experiment itself
        would keep drawing. */
    method TrialPrep(t1IdentityDraw: char, t1ColourDraw: Colour, t1TimeDraw: nat,
                     t2IdentityDraws: seq<char>, t2ColourDraws: seq<Colour>,
                     streamDraws: seq<char>) returns (ok: bool)
      requires t1IdentityDraw in Numbers
      requires t1TimeDraw < 5
      requires |t2IdentityDraws| >= 1 && DrawnFrom(t2IdentityDraws, Numbers)
      requires |t2ColourDraws| >= 1
      requires |streamDraws| >= t1TimeDraw + 5 + lag + 6
      requires DrawnFrom(streamDraws, Pool(blockType))
      modifies this
      ensures blockType == old(blockType) && lag == old(lag)
      ensures t1Identity == t1IdentityDraw && t1Colour == t1ColourDraw
      ensures t1Time == t1TimeDraw + 5 && 5 <= t1Time <= 9
      ensures t2Time == t1Time + lag
      ensures t2Identity in Numbers
      ensures ok <==> FirstDifferent(t2IdentityDraws, t1Identity).Some?
                      && FirstDifferent(t2ColourDraws, t1Colour).Some?
      ensures ok ==> t2Identity == t2IdentityDraws[FirstDifferent(t2IdentityDraws, t1Identity).value]
      ensures ok ==> t2Colour == t2ColourDraws[FirstDifferent(t2ColourDraws, t1Colour).value]
      ensures ok ==> t1Identity != t2Identity && t1Colour != t2Colour
      ensures ok ==> IsStream(rsvpStream, blockType, t1Time, t2Time, t1Identity, t2Identity, streamDraws)
      ensures !ok ==> rsvpStream == old(rsvpStream)
    {
      t1Identity := t1IdentityDraw;
      t1Colour := t1ColourDraw;
      t1Time := t1TimeDraw + 5;

      t2Identity := t2IdentityDraws[0];
      t2Colour := t2ColourDraws[0];
      t2Time := t1Time + lag;

      var n := 1;
      while t1Identity == t2Identity && n < |t2IdentityDraws|
        invariant 1 <= n <= |t2IdentityDraws|
        invariant t2Identity == t2IdentityDraws[n - 1]
        invariant forall j :: 0 <= j < n - 1 ==> t2IdentityDraws[j] == t1Identity
        invariant blockType == old(blockType) && lag == old(lag) && rsvpStream == old(rsvpStream)
        invariant t1Identity == t1IdentityDraw && t1Colour == t1ColourDraw
        invariant t1Time == t1TimeDraw + 5 && t2Time == t1Time + lag
        invariant t2Colour == t2ColourDraws[0]
      {
        t2Identity := t2IdentityDraws[n];
        n := n + 1;
      }
      if t1Identity == t2Identity {
        return false;
      }
      FirstDifferentUnique(t2IdentityDraws, t1Identity, n - 1);

      var m := 1;
      while t1Colour == t2Colour && m < |t2ColourDraws|
        invariant 1 <= m <= |t2ColourDraws|
        invariant t2Colour == t2ColourDraws[m - 1]
        invariant forall j :: 0 <= j < m - 1 ==> t2ColourDraws[j] == t1Colour
        invariant blockType == old(blockType) && lag == old(lag) && rsvpStream == old(rsvpStream)
        invariant t1Identity == t1IdentityDraw && t1Colour == t1ColourDraw
        invariant t1Time == t1TimeDraw + 5 && t2Time == t1Time + lag
        invariant t2Identity == t2IdentityDraws[n - 1] && t1Identity != t2Identity
      {
        t2Colour := t2ColourDraws[m];
        m := m + 1;
      }
      if t1Colour == t2Colour {
        return false;
      }
      FirstDifferentUnique(t2ColourDraws, t1Colour, m - 1);

      rsvpStream := PrepStream(blockType, streamDraws);
      ok := true;
    }

    /** The block switch at the end of a trial: the block type becomes the
        one `NextBlockType` gives for the host's parameters `p`. */
    method TrialCleanUp(p: Params)
      modifies this`blockType
      ensures blockType == NextBlockType(old(blockType), p)
    {
      if !p.practicing {
        if p.trialNumber == p.trialsPerBlock {
          if p.blockNumber < p.blocksPerExperiment {
            if blockType == Identity {
              blockType := Colour;
            } else {
              blockType := Identity;
            }
          }
        }
      } else {
        if p.trialNumber == p.trialsPerPracticeBlock {
          if blockType == Identity {
            blockType := Colour;
          } else {
            blockType := Identity;
          }
        }
      }
    }
  }
}
