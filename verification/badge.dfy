/** The visual variants of the shared badge component that the thread badges choose between. */
module Badge {
  datatype Variant = Default | Secondary | Destructive
}
