/** The colour families the views pick for a classified value. */
module Palette {

  datatype Tone = Green | Yellow | Red | Blue | Gray
}
