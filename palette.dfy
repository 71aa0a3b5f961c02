/** The colour palette shared by both players' pickers (the `colors` getter of the menu scene). */
module Palette {

  /** The four selectable colours, as hex strings, in the order their swatches are drawn. */
  const Colors: seq<string> := ["#DF1A2D", "#0798BB", "#F8E71C", "#7ED321"]

  /** A palette index is valid when it names one of the colours. */
  predicate ValidIndex(i: int) {
    0 <= i < |Colors|
  }
}
