/** The dashboard component (frontend/src/components/Dashboard.js): the `notes`,
    `filteredNotes`, `searchTerm`, `loading` and `error` state, the search effect, and
    the three handlers that replace `notes`. The outcome of each API call is a
    parameter: `Some` for a response, `None` for a rejected promise. */
module DashboardView {
  import opened Seqs
  import opened Text

  /** A note as the dashboard receives it from the API. */
  datatype Note = Note(SK: string, title: string, content: string, category: string, priority: string)

  const FetchFailed := "Failed to fetch notes. Please ensure backend is running."
  const AddFailed := "Failed to add note. Please ensure backend is running."
  const DeleteFailed := "Failed to delete note. Please ensure backend is running."

  /** The search test against an already lowercased term. */
  function MatchesLowered(needle: string): Note -> bool
  {
    (n: Note) => Includes(Lower(n.title), needle) || Includes(Lower(n.content), needle)
  }

  /** The note's lowercased title or content contains the lowercased term. */
  predicate Matches(n: Note, term: string)
  {
    Includes(Lower(n.title), Lower(term)) || Includes(Lower(n.content), Lower(term))
  }

  /** What the search effect puts in `filteredNotes`. */
  function SearchResults(notes: seq<Note>, term: string): (r: seq<Note>)
    ensures term == "" ==> r == notes
    ensures term != "" ==> forall i :: 0 <= i < |r| ==> r[i] in notes && Matches(r[i], term)
    ensures term != "" ==> forall i :: 0 <= i < |notes| && Matches(notes[i], term) ==> notes[i] in r
  {
    if term == "" then notes
    else
      var r := Filter(notes, MatchesLowered(Lower(term)));
      assert forall i :: 0 <= i < |notes| ==> (MatchesLowered(Lower(term))(notes[i]) <==> Matches(notes[i], term));
      r
  }

  /** The search keeps the notes' order: searching a concatenation is concatenating the searches. */
  lemma SearchAppend(a: seq<Note>, b: seq<Note>, term: string)
    ensures SearchResults(a + b, term) == SearchResults(a, term) + SearchResults(b, term)
  {
    if term != "" {
      FilterAppend(a, b, MatchesLowered(Lower(term)));
    }
  }

  /** The search is case-insensitive: two terms with the same lowercase form select the same notes. */
  lemma SearchIgnoresCase(notes: seq<Note>, term1: string, term2: string)
    requires Lower(term1) == Lower(term2)
    ensures SearchResults(notes, term1) == SearchResults(notes, term2)
  {
    assert |term1| == |Lower(term1)| == |Lower(term2)| == |term2|;
  }

  /** In particular a term and its lowercase form give the same result. */
  lemma SearchByLowercase(notes: seq<Note>, term: string)
    ensures SearchResults(notes, Lower(term)) == SearchResults(notes, term)
  {
    LowerIdempotent(term);
    SearchIgnoresCase(notes, Lower(term), term);
  }

  /** `note.SK !== noteId`: the filter of the delete handler. */
  function KeepsOtherThan(noteId: string): Note -> bool
  {
    (n: Note) => n.SK != noteId
  }

  /** The delete handler's update: every note with that SK goes, every other note stays, in order. */
  function WithoutNote(notes: seq<Note>, noteId: string): (r: seq<Note>)
    ensures forall i :: 0 <= i < |r| ==> r[i].SK != noteId && r[i] in notes
    ensures forall i :: 0 <= i < |notes| && notes[i].SK != noteId ==> notes[i] in r
  {
    Filter(notes, KeepsOtherThan(noteId))
  }

  /** Deleting an id that no note carries leaves the list as it was. */
  lemma WithoutAbsentNote(notes: seq<Note>, noteId: string)
    requires forall i :: 0 <= i < |notes| ==> notes[i].SK != noteId
    ensures WithoutNote(notes, noteId) == notes
  {
    FilterKeepsAll(notes, KeepsOtherThan(noteId));
  }

  /** Adding a note shows it at the end of the filtered list exactly when it matches the search. */
  lemma SearchAfterAdd(notes: seq<Note>, n: Note, term: string)
    ensures SearchResults(notes + [n], term) ==
      SearchResults(notes, term) + (if term == "" || Matches(n, term) then [n] else [])
  {
    SearchAppend(notes, [n], term);
  }

  class Dashboard {
    var notes: seq<Note>
    var filteredNotes: seq<Note>
    var searchTerm: string
    var loading: bool
    var error: string

    /** The search effect has run since `notes` or `searchTerm` last changed. */
    predicate Valid()
      reads this
    {
      filteredNotes == SearchResults(notes, searchTerm)
    }

    /** The initial state of the `useState` hooks. */
    constructor ()
      ensures Valid()
      ensures notes == [] && filteredNotes == [] && searchTerm == "" && loading && error == ""
    {
      notes := [];
      filteredNotes := [];
      searchTerm := "";
      loading := true;
      error := "";
    }

    /** The effect on `[notes, searchTerm]`. */
    method ApplySearch()
      modifies this`filteredNotes
      ensures Valid()
    {
      if searchTerm != "" {
        filteredNotes := Filter(notes, MatchesLowered(Lower(searchTerm)));
      } else {
        filteredNotes := notes;
      }
    }

    /** The search box's `setSearchTerm`, followed by the effect. */
    method SetSearchTerm(term: string)
      modifies this
      ensures Valid()
      ensures searchTerm == term
      ensures notes == old(notes) && error == old(error) && loading == old(loading)
    {
      searchTerm := term;
      ApplySearch();
    }

    /** `fetchNotes`: a failed fetch empties the list and sets an error. */
    method FetchNotes(response: Option<seq<Note>>)
      modifies this
      ensures Valid()
      ensures !loading && searchTerm == old(searchTerm)
      ensures response.Some? ==> notes == response.value && error == ""
      ensures response.None? ==> notes == [] && error == FetchFailed
    {
      loading := true;
      error := "";
      if response.Some? {
        notes := response.value;
      } else {
        error := FetchFailed;
        notes := [];
      }
      loading := false;
      ApplySearch();
    }

    /** `addNote`: appends the created note; a failed request changes only the error. */
    method AddNote(response: Option<Note>)
      modifies this
      ensures Valid()
      ensures searchTerm == old(searchTerm) && loading == old(loading)
      ensures response.Some? ==> notes == old(notes) + [response.value] && error == ""
      ensures response.None? ==> notes == old(notes) && error == AddFailed
    {
      if response.Some? {
        notes := notes + [response.value];
        error := "";
      } else {
        error := AddFailed;
      }
      ApplySearch();
    }

    /** `deleteNote`: once the API call succeeds, drops every note with that SK. */
    method DeleteNote(noteId: string, deleted: bool)
      modifies this
      ensures Valid()
      ensures searchTerm == old(searchTerm) && loading == old(loading)
      ensures deleted ==> notes == WithoutNote(old(notes), noteId) && error == ""
      ensures !deleted ==> notes == old(notes) && error == DeleteFailed
    {
      if deleted {
        notes := Filter(notes, KeepsOtherThan(noteId));
        error := "";
      } else {
        error := DeleteFailed;
      }
      ApplySearch();
    }
  }
}
