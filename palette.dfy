/** The colour families the badges, cards and icons are drawn in. */
module Palette {

  datatype Tone = Red | Amber | Green | Grey
}
