/** What a bar tile reports to the bar. */
module TileMessages {
  /** A click on the tile with the given name. */
  datatype TileOutput = Clicked(name: string)
}
