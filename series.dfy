/** The data series the axis-based framework hands to the chart. A series is
    identity-bearing: the chart keys its point lists by the series object
    itself, so `Serie` is a class whose fields never change. */
module Series {
  import opened Wrappers
  import opened Drawing

  /** One value of a series with its own colour. */
  datatype Entry = Entry(value: real, color: Color)

  /** The type tag of a `ChartSerieCombinate`. */
  datatype CombinateType = Bar | Line

  /** A plain `ChartSerie`, or a `ChartSerieCombinate` with its type tag. */
  datatype SerieKind = Plain | Combinate(combinateType: CombinateType)

  class Serie {
    /** `null` means: derive the line colour from the entries. */
    const color: Option<Color>
    const kind: SerieKind
    const entries: seq<Entry>

    constructor (color: Option<Color>, kind: SerieKind, entries: seq<Entry>)
      ensures this.color == color && this.kind == kind && this.entries == entries
    {
      this.color := color;
      this.kind := kind;
      this.entries := entries;
    }
  }

  /** `(serie as ChartSerieCombinate)?.Type == ChartSerieCombinateType.Bar`:
      only a combinate series tagged `Bar` is drawn as bars; a plain series
      and every other tag are drawn as points. */
  predicate IsBarSerie(s: Serie) {
    s.kind == Combinate(Bar)
  }
}
