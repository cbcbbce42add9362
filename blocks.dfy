/** Alternation of block types. The experiment starts in an identity block
    and, at the clean-up after the last trial of a block, switches to the
    other report type, so that identity and colour blocks alternate. */
module Blocks {
  import opened Stimuli

  /** The host framework's parameters read by the trial clean-up. */
  datatype Params = Params(
    practicing: bool,
    trialNumber: int,
    blockNumber: int,
    trialsPerBlock: int,
    trialsPerPracticeBlock: int,
    blocksPerExperiment: int)

  /** The other block type. */
  function Flip(b: BlockType): (r: BlockType)
    ensures r != b
  {
    if b == Identity then Colour else Identity
  }

  /** Two switches restore the original block type. */
  lemma FlipTwice(b: BlockType)
    ensures Flip(Flip(b)) == b
  {
  }

  /** The block type after the clean-up of a trial run under `p`. Outside
      practice it switches exactly at the last trial of a block that is not
      the experiment's last block; in practice it switches exactly at the
      last trial of the practice block. */
  function NextBlockType(b: BlockType, p: Params): (r: BlockType)
    ensures !p.practicing ==>
              (r != b <==> p.trialNumber == p.trialsPerBlock && p.blockNumber < p.blocksPerExperiment)
    ensures p.practicing ==> (r != b <==> p.trialNumber == p.trialsPerPracticeBlock)
    ensures r != b ==> r == Flip(b)
  {
    if !p.practicing then
      if p.trialNumber == p.trialsPerBlock then
        if p.blockNumber < p.blocksPerExperiment then Flip(b) else b
      else b
    else
      if p.trialNumber == p.trialsPerPracticeBlock then Flip(b) else b
  }

  /** Two clean-ups that each fall due to switch restore the block type. */
  lemma SwitchTwiceRestores(b: BlockType, p: Params, q: Params)
    requires NextBlockType(b, p) != b
    requires NextBlockType(NextBlockType(b, p), q) != NextBlockType(b, p)
    ensures NextBlockType(NextBlockType(b, p), q) == b
  {
  }

  /** The block type after the clean-ups of the trials `trials`, in order. */
  function AfterCleanUps(b: BlockType, trials: seq<Params>): BlockType
    decreases |trials|
  {
    if |trials| == 0 then b else AfterCleanUps(NextBlockType(b, trials[0]), trials[1..])
  }

  /** The parameters of the trials of one block as the host runs them:
      trial numbers 1 to `count` with everything else fixed. */
  function BlockTrials(practicing: bool, blockNumber: int, count: nat,
                       trialsPerBlock: int, trialsPerPracticeBlock: int,
                       blocksPerExperiment: int): (trials: seq<Params>)
    ensures |trials| == count
    ensures forall i :: 0 <= i < count ==> trials[i].trialNumber == i + 1
  {
    seq(count, i => Params(practicing, i + 1, blockNumber, trialsPerBlock,
                           trialsPerPracticeBlock, blocksPerExperiment))
  }

  /** Over a whole block, with the block's own trial count, the block type
      changes exactly once: it ends switched when the block is a practice
      block or not the experiment's last block, and unchanged otherwise. */
  lemma BlockRunSwitchesOnce(b: BlockType, practicing: bool, blockNumber: int, count: nat,
                             trialsPerBlock: int, trialsPerPracticeBlock: int,
                             blocksPerExperiment: int)
    requires count >= 1
    requires count == if practicing then trialsPerPracticeBlock else trialsPerBlock
    ensures AfterCleanUps(b, BlockTrials(practicing, blockNumber, count, trialsPerBlock,
                                         trialsPerPracticeBlock, blocksPerExperiment))
         == if practicing || blockNumber < blocksPerExperiment then Flip(b) else b
  {
    var trials := BlockTrials(practicing, blockNumber, count, trialsPerBlock,
                              trialsPerPracticeBlock, blocksPerExperiment);
    BlockRunSuffix(b, trials, 0);
    assert trials[0..] == trials;
  }

  /** Induction step of `BlockRunSwitchesOnce`: the trials from index `j` on. */
  lemma {:induction false} BlockRunSuffix(b: BlockType, trials: seq<Params>, j: nat)
    requires j < |trials|
    requires forall i :: 0 <= i < |trials| ==> trials[i] == trials[0].(trialNumber := i + 1)
    requires |trials| == if trials[0].practicing then trials[0].trialsPerPracticeBlock
                         else trials[0].trialsPerBlock
    ensures AfterCleanUps(b, trials[j..])
         == if trials[0].practicing || trials[0].blockNumber < trials[0].blocksPerExperiment
            then Flip(b) else b
    decreases |trials| - j
  {
    var p := trials[j];
    assert trials[j..][1..] == trials[j + 1..];
    if j + 1 == |trials| {
      assert trials[j + 1..] == [];
    } else {
      assert NextBlockType(b, p) == b;
      BlockRunSuffix(b, trials, j + 1);
    }
  }

  /** The block type in force during block `k` (numbered from 1) of an
      experiment without practice blocks that starts in an identity block. */
  function BlockTypeOfBlock(k: nat, trialsPerBlock: nat, blocksPerExperiment: int): BlockType
  {
    if k <= 1 then Identity
    else AfterCleanUps(BlockTypeOfBlock(k - 1, trialsPerBlock, blocksPerExperiment),
                       BlockTrials(false, k - 1, trialsPerBlock, trialsPerBlock, 0, blocksPerExperiment))
  }

  /** Blocks alternate: odd-numbered blocks are identity blocks and
      even-numbered blocks are colour blocks. */
  lemma {:induction false} BlocksAlternate(k: nat, trialsPerBlock: nat, blocksPerExperiment: int)
    requires 1 <= k <= blocksPerExperiment
    requires trialsPerBlock >= 1
    ensures BlockTypeOfBlock(k, trialsPerBlock, blocksPerExperiment)
         == if k % 2 == 1 then Identity else Colour
  {
    if k > 1 {
      BlocksAlternate(k - 1, trialsPerBlock, blocksPerExperiment);
      BlockRunSwitchesOnce(BlockTypeOfBlock(k - 1, trialsPerBlock, blocksPerExperiment),
                           false, k - 1, trialsPerBlock, trialsPerBlock, 0, blocksPerExperiment);
    }
  }
}
