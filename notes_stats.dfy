/** The statistics tiles (frontend/src/components/NotesStats.js): three numbers
    derived from the notes the dashboard shows. */
module NotesStatsView {
  import opened Seqs
  import Aggregator
  import DashboardView

  /** One tile: its caption, its number and its colour. */
  datatype Tile = Tile(title: string, value: nat, bg: string)

  function TagOf(n: DashboardView.Note): Aggregator.Tag
  {
    Aggregator.Tag(n.category, n.priority)
  }

  /** The tiles in display order: total, high priority, distinct categories. Their
      numbers agree with the server's statistics of the same notes. */
  function Tiles(notes: seq<DashboardView.Note>): (tiles: seq<Tile>)
    ensures |tiles| == 3
    ensures tiles[0].title == "Total Notes" && tiles[1].title == "High Priority" && tiles[2].title == "Categories"
    ensures tiles[0].value == |notes|
    ensures tiles[1].value <= tiles[0].value && tiles[2].value <= tiles[0].value
    ensures tiles[2].value == 0 <==> notes == []
    ensures tiles[2].value == |Elems(Aggregator.Categories(Aggregator.TagsOf(notes, TagOf)))|
    ensures var s := Aggregator.Summarize(Aggregator.TagsOf(notes, TagOf));
      tiles[1].value == s.highPriority && tiles[2].value == s.categories
  {
    var tags := Aggregator.TagsOf(notes, TagOf);
    var s := Aggregator.Summarize(tags);
    [ Tile("Total Notes", |notes|, "primary"),
      Tile("High Priority", Aggregator.PriorityCount(tags, "High"), "danger"),
      Tile("Categories", Aggregator.CategoryCount(tags), "success") ]
  }
}
