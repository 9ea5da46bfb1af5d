/** The visual variants the badge lookups of the pages return. */
module Badges {

  datatype Variant = Default | Secondary | Destructive | Outline | Safe | Caution | Danger
}
