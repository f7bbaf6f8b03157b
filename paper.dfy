/** Paper presets. The preset database and the unit conversion behind
    `Paper::size()` are not part of this model: a preset is just the pair
    of its class and its size. */
module Paper {
  import opened Geom

  /** The class of a paper; `Custom` marks a size set by hand. */
  datatype PaperClass = Custom | Base | US | Newspaper | Book

  /** A paper preset. */
  datatype Paper = Paper(paperClass: PaperClass, size: Size)
}
