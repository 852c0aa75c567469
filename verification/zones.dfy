/**
 * Zone identifiers as the parser receives them, and the zone data it needs.
 * The zone database itself belongs to the date library; the model replaces
 * it with a table of UTC offsets.
 */
module Zones {
  import opened Optional

  /** Identifiers the parser rewrites before use. The library reads "BST" as
      a fixed offset of zero, so it is replaced by the named zone whose
      offset follows British summer time. */
  const Aliases: map<string, string> := map["BST" := "Europe/London"]

  /** The identifier actually handed to the date library. */
  function ResolveZone(zone: string): (r: string)
    ensures zone == "BST" ==> r == "Europe/London"
    ensures zone != "BST" ==> r == zone
  {
    if zone in Aliases then Aliases[zone] else zone
  }

  /** The optional target zone, resolved independently of the source; an
      absent target stays absent. */
  function ResolveTarget(zone: Option<string>): (r: Option<string>)
    ensures r.None? <==> zone.None?
    ensures zone == Some("BST") ==> r == Some("Europe/London")
    ensures zone.Some? && zone.value != "BST" ==> r == zone
  {
    match zone
    case None => None
    case Some(z) => Some(ResolveZone(z))
  }

  /** The zone identifiers the date library knows, each with the offset from
      UTC, in minutes, in force on the day of the shift. */
  type ZoneTable = map<string, int>

  /** The minutes to add to a wall-clock time in zone `from` to read the
      same instant on a wall clock in zone `to`. */
  function OffsetChange(zones: ZoneTable, from: string, to: string): (r: int)
    requires from in zones && to in zones
    ensures r + zones[from] == zones[to]
  {
    zones[to] - zones[from]
  }
}
