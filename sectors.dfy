/**
 * What the responder needs to know of sectors and worlds: the filter it hands
 * to the serializer, the text encoding it picks, and the lookups it calls.
 * The sector itself is opaque here (a type parameter `S`); the lookups are
 * supplied from outside.
 */
module Sectors {
  import opened Wrappers

  /** A world, as far as filtering sees it: the subsector and quadrant it lies in. */
  datatype World = World(subsector: int, quadrant: int)

  /** The world filter handed to the serializer; the source's null filter is `Unfiltered`. */
  datatype WorldFilter = Unfiltered | BySubsector(index: int) | ByQuadrant(index: int)

  /** Whether the serializer keeps `w` under filter `f`. */
  predicate Accepts(f: WorldFilter, w: World) {
    match f
    case Unfiltered => true
    case BySubsector(i) => w.subsector == i
    case ByQuadrant(i) => w.quadrant == i
  }

  /** The two encodings the responder chooses between: UTF-8 without a byte-order mark, and Windows code page 1252. */
  datatype TextEncoding = Utf8NoBom | Windows1252

  /** The output encoding for the requested `type` (absent is `None`). */
  function EncodingFor(mediaType: Option<string>): TextEncoding {
    match mediaType
    case Some(t) => if t == "SecondSurvey" || t == "TabDelimited" then Utf8NoBom else Windows1252
    case None => Windows1252
  }

  /** The sector map's lookups by location and by name; `None` is the source's null. */
  datatype SectorMap<S> = SectorMap(fromLocation: (int, int) -> Option<S>, fromName: string -> Option<S>)

  /**
   * Sector.SubsectorIndexFor, which depends on the sector, and the static
   * Sector.QuadrantIndexFor; both answer -1 for a name they do not know.
   */
  datatype SectorIndexing<!S> = SectorIndexing(subsectorIndexFor: (S, string) -> int, quadrantIndexFor: string -> int)
}
