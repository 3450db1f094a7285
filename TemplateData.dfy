/** The template-data formatter: every entry of a message's `data` mapping is
    normalised, independently of the others, into a `{value, color}` record. */
module TemplateData {
  import opened Wrappers

  /** Colour given to an entry that does not carry one of its own. */
  const DEFAULT_COLOR: string := "#173177"

  /** Value substituted for an entry whose shape is not understood. */
  const ERROR_ITEM: string := "error data item."

  /** The shapes a caller may put under one key of `data`. */
  datatype Entry =
    | Scalar(text: string)                          // 'first' => 'text'
    | Single(value: string)                         // 'keynote2' => ['text']
    | Pair(value: string, color: string)            // 'first' => ['text', '#555555']
    | Record(value: string, given: Option<string>)  // 'first' => ['value' => 'text', 'color' => '#555555']
    | Unsupported                                   // any other value, e.g. an object

  /** A normalised entry, as sent to the remote API. */
  datatype Cell = Cell(value: string, color: string)

  /** The colour an entry asks for itself; "" when it asks for none. */
  function ColorOverride(e: Entry): string {
    match e
    case Pair(_, c) => c
    case Record(_, Some(c)) => c
    case _ => ""
  }

  /** The value an entry carries; the sentinel for an unsupported shape. */
  function ValueOf(e: Entry): string {
    match e
    case Scalar(s) => s
    case Single(v) => v
    case Pair(v, _) => v
    case Record(v, _) => v
    case Unsupported => ERROR_ITEM
  }

  /** Normalises one entry. */
  function NormalizeEntry(e: Entry): (c: Cell)
    ensures c.color != ""
    ensures ColorOverride(e) != "" ==> c.color == ColorOverride(e)
    ensures ColorOverride(e) == "" ==> c.color == DEFAULT_COLOR
    ensures c.value == ValueOf(e)
  {
    match e
    case Scalar(s) => Cell(s, DEFAULT_COLOR)
    case Single(v) => Cell(v, DEFAULT_COLOR)
    case Pair(v, c) => Cell(v, if c == "" then DEFAULT_COLOR else c)
    case Record(v, c) =>
      Cell(v, if c.None? || c.value == "" then DEFAULT_COLOR else c.value)
    case Unsupported => Cell(ERROR_ITEM, DEFAULT_COLOR)
  }

  /** Normalises a whole `data` mapping, key by key. */
  function Normalize(data: map<string, Entry>): (r: map<string, Cell>)
    ensures r.Keys == data.Keys
    ensures forall k :: k in r ==> r[k] == NormalizeEntry(data[k])
  {
    map k | k in data :: NormalizeEntry(data[k])
  }

  /** A normalised entry read back as an input entry. */
  function AsEntry(c: Cell): Entry {
    Record(c.value, Some(c.color))
  }

  /** A normalised mapping read back as an input mapping. */
  function AsEntries(cells: map<string, Cell>): (r: map<string, Entry>)
    ensures r.Keys == cells.Keys
    ensures forall k :: k in r ==> r[k] == AsEntry(cells[k])
  {
    map k | k in cells :: AsEntry(cells[k])
  }

  lemma ScalarGetsDefaultColor(data: map<string, Entry>, k: string, s: string)
    requires k in data && data[k] == Scalar(s)
    ensures k in Normalize(data) && Normalize(data)[k] == Cell(s, DEFAULT_COLOR)
  {
  }

  lemma SingleGetsDefaultColor(data: map<string, Entry>, k: string, v: string)
    requires k in data && data[k] == Single(v)
    ensures k in Normalize(data) && Normalize(data)[k] == Cell(v, DEFAULT_COLOR)
  {
  }

  lemma PairKeepsItsColor(data: map<string, Entry>, k: string, v: string, c: string)
    requires k in data && data[k] == Pair(v, c) && c != ""
    ensures k in Normalize(data) && Normalize(data)[k] == Cell(v, c)
  {
  }

  lemma UnsupportedBecomesSentinel(data: map<string, Entry>, k: string)
    requires k in data && data[k] == Unsupported
    ensures k in Normalize(data) && Normalize(data)[k] == Cell(ERROR_ITEM, DEFAULT_COLOR)
  {
  }

  /** An entry already in `{value, color}` form comes back unchanged. */
  lemma NormalizedEntryPassesThrough(c: Cell)
    requires c.color != ""
    ensures NormalizeEntry(AsEntry(c)) == c
  {
  }

  /** Normalising an already normalised mapping changes nothing. */
  lemma NormalizeIdempotent(data: map<string, Entry>)
    ensures Normalize(AsEntries(Normalize(data))) == Normalize(data)
  {
  }
}
