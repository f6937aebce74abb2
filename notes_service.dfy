/** The note half of the data-access layer (backend/services/notesService.js): notes
    stored in their owner's partition at (<owner id>, NOTE#<t>). `clock` stands for
    `Date.now()` and `now` for `new Date().toISOString()`. */
module NotesService {
  import opened Seqs
  import opened Text
  import opened KeyedTable
  import Aggregator

  /** The `noteData` argument of `createNote`; an absent field is the empty string. */
  datatype NoteData = NoteData(title: string, content: string, category: string, priority: string)

  const NoteDeleted := "Note deleted successfully"

  /** `NOTE#${Date.now()}` */
  function NoteId(clock: nat): (id: string)
    ensures StartsWith(id, NotePrefix)
  {
    assert (NotePrefix + Digits(clock))[..|NotePrefix|] == NotePrefix;
    NotePrefix + Digits(clock)
  }

  /** The item `createNote` writes and returns: missing category and priority take
      their defaults. */
  function NewNoteItem(userId: string, data: NoteData, clock: nat, now: string): (item: Item)
    ensures item.NoteItem? && item.EntityType() == "NOTE"
    ensures item.Key() == (userId, NoteId(clock)) && item.noteId == item.SK
    ensures item.title == data.title && item.content == data.content
    ensures data.category == "" ==> item.category == "General"
    ensures data.category != "" ==> item.category == data.category
    ensures data.priority == "" ==> item.priority == "Medium"
    ensures data.priority != "" ==> item.priority == data.priority
    ensures item.createdAt == item.updatedAt == now
    ensures Shaped(item)
  {
    var id := NoteId(clock);
    NoteItem(userId, id, id, data.title, data.content,
             Or(data.category, "General"), Or(data.priority, "Medium"), now, now)
  }

  /** The Query key condition `PK = :pk AND begins_with(SK, 'NOTE#')`. */
  function IsNoteOf(userId: string): (p: Item -> bool)
    ensures forall x :: p(x) ==> x.PK == userId && StartsWith(x.SK, NotePrefix)
    ensures forall x :: p(x) && Shaped(x) ==> x.NoteItem? && x.EntityType() == "NOTE"
  {
    ProfileSortKeyIsNotANoteKey();
    (x: Item) => x.PK == userId && StartsWith(x.SK, NotePrefix)
  }

  /** The items of `userId`'s partition in the note namespace. */
  ghost function Listing(items: map<Key, Item>, userId: string): set<Item>
  {
    set k | k in items && IsNoteOf(userId)(items[k]) :: items[k]
  }

  /** `getNote`: the item at (userId, noteId), or null. */
  function GetNote(t: Table, userId: string, noteId: string): (r: Option<Item>)
    reads t
    ensures r.None? <==> (userId, noteId) !in t.items
    ensures r.Some? ==> r.value == t.items[(userId, noteId)]
    ensures r.Some? && t.Valid() ==> r.value.PK == userId && r.value.SK == noteId
  {
    t.Get((userId, noteId))
  }

  /** `createNote`: an unconditional put, so an item already at the generated key is
      replaced; the result is exactly the item written. */
  method CreateNote(t: Table, userId: string, data: NoteData, clock: nat, now: string) returns (item: Item)
    requires t.Valid()
    modifies t
    ensures t.Valid()
    ensures old(t.WellFormed()) ==> t.WellFormed()
    ensures item == NewNoteItem(userId, data, clock, now)
    ensures t.items == old(t.items)[item.Key() := item]
    ensures GetNote(t, userId, item.SK) == Some(item)
  {
    item := NewNoteItem(userId, data, clock, now);
    t.Put(item);
  }

  /** `getUserNotes`: the Query over the owner's partition. It returns every note item
      of that partition once, nothing else (in particular no profile), and an empty
      sequence when there is none. */
  method GetUserNotes(t: Table, userId: string) returns (r: seq<Item>)
    requires t.Valid()
    ensures Elems(r) == Listing(t.items, userId)
    ensures NoDuplicates(r)
    ensures |r| == |t.KeysWhere(IsNoteOf(userId))|
    ensures forall i :: 0 <= i < |r| ==> r[i].PK == userId && StartsWith(r[i].SK, NotePrefix)
    ensures t.WellFormed() ==> forall i :: 0 <= i < |r| ==> r[i].NoteItem?
  {
    r := t.Select(IsNoteOf(userId));
    forall x | x in Elems(r) ensures x in Listing(t.items, userId) {
      var k :| k in t.items && t.items[k] == x;
    }
    forall i | 0 <= i < |r| ensures IsNoteOf(userId)(r[i]) {
      assert r[i] in r;
    }
    if t.WellFormed() {
      forall i | 0 <= i < |r| ensures r[i].NoteItem? {
        var k :| k in t.items && t.items[k] == r[i];
        assert Shaped(r[i]);
        ProfileSortKeyIsNotANoteKey();
      }
    }
  }

  /** `deleteNote`: removes only the (userId, noteId) key, and reports success whether
      or not an item was there. */
  method DeleteNote(t: Table, userId: string, noteId: string) returns (message: string)
    requires t.Valid()
    modifies t
    ensures t.Valid()
    ensures old(t.WellFormed()) ==> t.WellFormed()
    ensures message == NoteDeleted
    ensures t.items == old(t.items) - {(userId, noteId)}
    ensures GetNote(t, userId, noteId) == None
  {
    t.Delete((userId, noteId));
    message := NoteDeleted;
  }

  /** The category and priority of a note item. */
  function TagOf(item: Item): Aggregator.Tag
    requires item.NoteItem?
  {
    Aggregator.Tag(item.category, item.priority)
  }

  /** `getUserStats`: the statistics of the owner's listing. */
  method GetUserStats(t: Table, userId: string) returns (s: Aggregator.Stats, ghost notes: seq<Item>)
    requires t.WellFormed()
    ensures Elems(notes) == Listing(t.items, userId) && NoDuplicates(notes)
    ensures forall i :: 0 <= i < |notes| ==> notes[i].NoteItem?
    ensures s == Aggregator.Summarize(Aggregator.TagsOf(notes, TagOf))
    ensures s.totalNotes == |t.KeysWhere(IsNoteOf(userId))|
  {
    var listed := GetUserNotes(t, userId);
    notes := listed;
    s := Aggregator.ComputeStats(Aggregator.TagsOf(listed, TagOf));
  }

  /** Writing a note under another owner leaves a listing unchanged; writing one of
      this owner's notes adds it, replacing whatever was stored at its key. */
  lemma ListingAfterPut(items: map<Key, Item>, item: Item, userId: string)
    requires KeyedByOwnKey(items)
    ensures !IsNoteOf(userId)(item) ==> Listing(items[item.Key() := item], userId) == Listing(items, userId) - (if item.Key() in items then {items[item.Key()]} else {})
    ensures item.PK != userId ==> Listing(items[item.Key() := item], userId) == Listing(items, userId)
    ensures IsNoteOf(userId)(item) ==>
      Listing(items[item.Key() := item], userId) == {item} + set x | x in Listing(items, userId) && x.Key() != item.Key()
  {
    var after := items[item.Key() := item];
    var before := Listing(items, userId);
    var now := Listing(after, userId);
    if item.PK != userId {
      forall x | x in before ensures x in now {
        var k :| k in items && IsNoteOf(userId)(items[k]) && items[k] == x;
        assert k != item.Key();
        assert after[k] == x;
      }
    }
    forall x | x in before && x.Key() != item.Key() ensures x in now {
      var k :| k in items && IsNoteOf(userId)(items[k]) && items[k] == x;
      assert after[k] == x;
    }
    forall x | x in now ensures x == item || (x in before && x.Key() != item.Key()) {
      var k :| k in after && IsNoteOf(userId)(after[k]) && after[k] == x;
      if k != item.Key() {
        assert items[k] == x && x.Key() == k;
      }
    }
    if IsNoteOf(userId)(item) {
      assert after[item.Key()] == item;
    }
  }

  /** Deleting a key removes exactly the item stored there from its owner's listing;
      every other listing is unchanged. */
  lemma ListingAfterDelete(items: map<Key, Item>, key: Key, userId: string)
    requires KeyedByOwnKey(items)
    ensures Listing(items - {key}, userId) == set x | x in Listing(items, userId) && x.Key() != key
    ensures key.0 != userId ==> Listing(items - {key}, userId) == Listing(items, userId)
  {
    var before := Listing(items, userId);
    forall x | x in before && x.Key() != key ensures x in Listing(items - {key}, userId) {
      var k :| k in items && IsNoteOf(userId)(items[k]) && items[k] == x;
      assert (items - {key})[k] == x;
    }
  }
}
