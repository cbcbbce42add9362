# ABColour_NoSwitch: RSVP stream and trial sequencing

A Dafny model of the sequencing logic in the attentional-blink experiment
`ABColour_NoSwitch`. In each trial, a rapid serial visual presentation (RSVP)
stream shows two digit targets, T1 and T2, among distractors. Depending on the
block type, the participant then reports either the targets' identities or
their colours. The model covers three parts of the experiment object:

- **Stream building** (`prep_stream`). The stream has `t2_time + 6` slots.
  T1 sits at slot `t1_time` and T2 at slot `t2_time`. Every other slot holds a
  distractor drawn from the block's pool: one of 25 letters (no O) in
  identity blocks, one of the digits 1-9 in colour blocks. Identity blocks show
  every item in the grey `stream` style. Colour blocks show T1 and T2 in the
  `T1Col`/`T2Col` styles, coloured with the targets' colours.
- **Target preparation** (`trial_prep`). T1's slot is 5 plus a draw from
  `range(5)`, and T2's slot is T1's slot plus the lag. T2's identity and colour
  are redrawn until they differ from T1's.
- **Block alternation** (`trial_clean_up`). The block type starts as identity
  and switches at the end of each block, except after the last block of the
  experiment.

Modules:

- `Stimuli` (`stimuli.dfy`): block types, item styles, items and the two
  symbol pools.
- `Sampling` (`sampling.dfy`): `FirstDifferent`, the place where a
  "draw again while equal" loop stops.
- `Stream` (`stream.dfy`): `IsStream`, which says exactly what a trial's
  stream contains, and the properties that follow from it.
- `Blocks` (`blocks.dfy`): `NextBlockType`, the block switch, and its
  behaviour over whole blocks and a whole experiment.
- `Experiment` (`experiment.dfy`): the class `ABColourNoSwitch`. Its fields
  hold the trial state that the source keeps on `self`. `PrepStream` builds the
  stream by appending in a loop. `TrialPrep` runs the two rejection loops over
  the fields. `TrialCleanUp` switches `blockType` in place.

Randomness is replaced by inputs. Each single draw is given as the value drawn.
A rejection loop gets a finite supply of successive draws, and `TrialPrep`
reports `ok == false` if the supply runs out before a different value turns
up. The distractor draws are one value per stream slot, and the draws for the
two target slots are ignored. Colours are a type parameter that needs only
equality.

Where the code and its comments differ, the model follows the code:

- The comment at `experiment.py:351` says 6 items always follow T2. The loop
  `range(0, t2_time+6)` builds `t2_time + 6` items, so only 5 items follow T2
  (6 counting T2 itself). `Stream.ItemsAfterT2` states the 5.
- Invalid positions are not rejected. If `lag` is 0, T1 and T2 share a slot,
  and because of the `elif` at line 356, only T1 is shown there. `IsStream`
  keeps that case, and `TrialPrep` accepts any `lag >= 0`.

## Model

| member | source | states |
|---|---|---|
| `Stimuli.LettersAreAlphabetWithoutO` | experiment.py:31-35 | the letter pool has 25 symbols, and a symbol is in it exactly when it is an upper-case letter other than O; no digit is in it |
| `Stimuli.NumbersAreDigitsOneToNine` | experiment.py:37-38 | the digit pool has 9 symbols, and a symbol is in it exactly when it is one of the digits 1-9 |
| `Stimuli.PoolsAreDisjoint` | experiment.py:31-38 | no symbol is both a distractor letter and a target digit |
| `Sampling.FirstDifferent` | experiment.py:180-184 | a "draw again while equal to T1's value" loop stops at the first draw that differs, and every draw before it equals T1's value; it never stops exactly when every draw equals T1's value |
| `Sampling.FirstDifferentUnique` | experiment.py:180-184 | a draw that differs from T1's value and follows only equal draws is the one where the loop stops |
| `Sampling.FirstDifferentExtend` | experiment.py:180-184 | adding draws after a successful stop does not change where the loop stops |
| `Stream.StreamIsDetermined` | experiment.py:350-372 | once the targets and the per-slot draws are fixed, exactly one stream fits the stream description |
| `Stream.ItemsAfterT2` | experiment.py:351-352 | when T1 comes no later than T2, the stream has `t2_time + 6` items, and T2 is followed by exactly 5 neutral distractors |
| `Stream.IdentityStreamShape` | experiment.py:348-360 | in an identity block every item, targets included, uses the `stream` style; every non-target is a letter other than O; a slot shows a digit exactly when it is T1's or T2's slot |
| `Stream.ColourStreamShape` | experiment.py:361-372 | in a colour block every non-target is a digit 1-9 in the `stream` style; T1 uses `T1Col` and T2 uses `T2Col`; a slot is coloured exactly when it is a target slot |
| `Blocks.Flip` | experiment.py:283-286 | a switch always changes the block type |
| `Blocks.FlipTwice` | experiment.py:283-292 | switching twice restores the original block type |
| `Blocks.NextBlockType` | experiment.py:279-292 | outside practice, the block type changes exactly when `trial_number == trials_per_block` and `block_number < blocks_per_experiment`; in practice it changes exactly when `trial_number == trials_per_practice_block`; any change is a switch to the other type |
| `Blocks.SwitchTwiceRestores` | experiment.py:283-292 | two clean-ups that each switch the block type bring back the original type |
| `Blocks.BlockRunSwitchesOnce` | experiment.py:279-292 | after all the clean-ups of a block (trials 1 to the block's trial count), the block type has switched exactly when the block is a practice block or is not the last block |
| `Blocks.BlocksAlternate` | experiment.py:279-292 | in an experiment without practice blocks, odd-numbered blocks are identity blocks and even-numbered blocks are colour blocks |
| `Experiment.ABColourNoSwitch.Setup` | experiment.py:110 | the experiment starts in an identity block |
| `Experiment.ABColourNoSwitch.PrepStream` | experiment.py:340-376 | the built stream meets the stream description for the current targets: `t2_time + 6` items, T1 and T2 at their slots in the block's styles, and every other slot holding its draw from the block's pool in the `stream` style |
| `Experiment.ABColourNoSwitch.TrialPrep` | experiment.py:169-204 | T1's identity and colour are the first draws; `5 <= t1_time <= 9` and `t2_time == t1_time + lag`; T2's identity is a digit; on success, T2's identity and colour are the first redraws that differ from T1's, so `t1_identity != t2_identity` and `t1_colour != t2_colour`, and the stream is rebuilt for the block type; the block type and lag are unchanged |
| `Experiment.ABColourNoSwitch.TrialCleanUp` | experiment.py:279-292 | the block type becomes `NextBlockType` of its old value under the host's trial and block counters |

## Left out

- Rendering is not modelled: `fill`, `blit`, `flip`, `clear`, `message` and
  the text styles (experiment.py:67-70, 96-103, 344-346). An item keeps only
  its symbol and a style tag. `T1Col`/`T2Col` stand for the styles that
  `prep_stream` colours with T1's and T2's colours.
- The busy-wait presentation loop `present_stream` (experiment.py:378-393) is
  not modelled. It is wall-clock timing and input polling.
- Colour wheels are not modelled: their random rotation, `color_from_angle`,
  the dummy targets and the response collectors' configuration
  (experiment.py:141-159, 162-167, 186-200). A colour draw is given as the
  colour itself.
- The stream-onset event ticket (experiment.py:208) and the fixation display
  are not modelled. They are host timing.
- Response collection and the per-trial record in `trial` (experiment.py:210-269)
  are not modelled. They are host I/O and data logging.
- The block, break and end-of-experiment screens (experiment.py:113-139,
  294-311) and the collector resets (experiment.py:273-277) are not modelled.
  They are display and host widgets.
- Size conversions in `setup` (experiment.py:44-53) are not modelled. They are
  floating-point unit conversions over host parameters.
- Practice-block insertion (experiment.py:106-108) and the host's iteration
  over blocks and trials are host-owned. `Blocks.BlockTrials` assumes trials
  are numbered 1 to the block's trial count, and `Blocks.BlocksAlternate`
  covers experiments without practice blocks.
- Python 2's `random.choice(dict.values())` is not modelled (experiment.py:360,
  372). The model uses the pools as ordered sequences, and each distractor is
  given as the symbol drawn.
- `Experiment.ABColourNoSwitch.TrialPrep` does not model the unbounded
  redrawing. The source keeps drawing forever, while the model stops with
  `ok == false` when the supplied draws run out.
