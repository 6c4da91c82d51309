/**
 * The shape of the budget document `sector_data.json` that the extractor writes
 * and the chart reads, plus the Option and Result wrappers used by both.
 *
 * A JSON object from names to amounts is kept as a sequence of items in
 * insertion order, which Python's dict keeps and JavaScript's `Object.keys`
 * keeps for keys that are not integer-like; an object from names to measure
 * lists is a map.
 */
module SectorData {

  datatype Option<T> = None | Some(value: T)

  datatype Result<T, E> = Success(value: T) | Failure(error: E)

  /** A name with a signed amount (million euro): a sector or subsector total, or a measure. */
  datatype Item = Item(name: string, amount: real)

  /** `industrie_subsectors`: either member may be missing from the document. */
  datatype Subsectors = Subsectors(
    subsectorTotals: Option<seq<Item>>,
    subsectorDetails: Option<map<string, seq<Item>>>)

  /** The whole document: `sector_totals`, `sector_details` and the optional `industrie_subsectors`. */
  datatype Dataset = Dataset(
    sectorTotals: seq<Item>,
    sectorDetails: map<string, seq<Item>>,
    industrieSubsectors: Option<Subsectors>)

  /** The keys of a name-to-amount object. */
  function Names(items: seq<Item>): (r: set<string>)
    ensures forall i :: 0 <= i < |items| ==> items[i].name in r
    ensures forall n :: n in r ==> exists i :: 0 <= i < |items| && items[i].name == n
  {
    set i | 0 <= i < |items| :: items[i].name
  }

  /** JavaScript's `details[key] || []`: the list under `key`, or the empty list when the key is absent. */
  function Lookup(details: map<string, seq<Item>>, key: string): (r: seq<Item>)
    ensures key !in details ==> r == []
    ensures key in details ==> r == details[key]
  {
    if key in details then details[key] else []
  }
}
