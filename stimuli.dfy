/** Stimulus vocabulary of the attentional-blink RSVP experiment: the two block
    types, the text styles a stream item is rendered in, and the two symbol
    pools (letters for identity-block distractors, digits for targets and for
    colour-block distractors). */
module Stimuli {

  /** The kind of report asked for in a block. */
  datatype BlockType = Identity | Colour

  /** The text style an item is rendered in: the neutral grey `stream` style,
      or the styles coloured with target 1's and target 2's colour. */
  datatype Style = Stream | T1Col | T2Col

  /** One item of an RSVP stream: the symbol shown and the style it is shown in. */
  datatype Item = Item(symbol: char, style: Style)

  /** Distractor letters of identity blocks: A to Z without O, which looks like zero. */
  const Letters: seq<char> :=
    ['A', 'B', 'C', 'D', 'E',
     'F', 'G', 'H', 'I', 'J',
     'K', 'L', 'M', 'N', 'P',
     'Q', 'R', 'S', 'T', 'U',
     'V', 'W', 'X', 'Y', 'Z']

  /** Target identities, and the distractors of colour blocks. */
  const Numbers: seq<char> := ['1', '2', '3', '4', '5', '6', '7', '8', '9']

  predicate IsDigit(c: char) {
    '0' <= c <= '9'
  }

  /** The pool distractors are drawn from in a block of the given type. */
  function Pool(block: BlockType): seq<char> {
    if block == Identity then Letters else Numbers
  }

  /** Every value of `draws` is a member of `pool`. */
  predicate DrawnFrom(draws: seq<char>, pool: seq<char>) {
    forall i :: 0 <= i < |draws| ==> draws[i] in pool
  }

  /** The letter pool is exactly the 25 upper-case letters other than O, so
      it holds no digit. */
  lemma LettersAreAlphabetWithoutO(c: char)
    ensures |Letters| == 25
    ensures c in Letters <==> 'A' <= c <= 'Z' && c != 'O'
    ensures c in Letters ==> !IsDigit(c)
  {
  }

  /** The digit pool is exactly the nine digits 1 to 9: no zero. */
  lemma NumbersAreDigitsOneToNine(c: char)
    ensures |Numbers| == 9
    ensures c in Numbers <==> '1' <= c <= '9'
  {
  }

  /** No symbol belongs to both pools, so an identity-block distractor can
      never be mistaken for a target. */
  lemma PoolsAreDisjoint(c: char)
    ensures !(c in Letters && c in Numbers)
  {
  }
}
