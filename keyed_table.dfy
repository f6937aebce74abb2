/** The single DynamoDB table that both services share, as a map from the composite
    primary key (PK, SK) to an item. Users and notes live side by side:

      profile item: (USER#<t>, PROFILE)
      note item:    (<owner id>, NOTE#<t>)

    Only the commands the services issue are modelled: Get, Put (plain and with an
    `attribute_not_exists(PK)` condition), Delete, an Update that sets two attributes
    of a profile, and the item selection behind Query and Scan. */
module KeyedTable {
  import opened Seqs
  import opened Text

  type Key = (string, string)

  const ProfileSK := "PROFILE"
  const UserPrefix := "USER#"
  const NotePrefix := "NOTE#"

  /** An item of the table. `entityType` is not stored separately: it is "USER" for a
      profile and "NOTE" for a note. */
  datatype Item =
    | Profile(PK: string, SK: string, email: string, password: string, createdAt: string, updatedAt: string)
    | NoteItem(
        PK: string, SK: string, noteId: string,
        title: string, content: string, category: string, priority: string,
        createdAt: string, updatedAt: string)
  {
    function EntityType(): string
    {
      if Profile? then "USER" else "NOTE"
    }

    function Key(): Key
    {
      (PK, SK)
    }
  }

  /** The shape the services give every item they write: profiles under a USER# id
      with the PROFILE sort key, notes under a NOTE# sort key equal to their noteId. */
  predicate Shaped(item: Item)
  {
    match item
    case Profile(_, _, _, _, _, _) => item.SK == ProfileSK && StartsWith(item.PK, UserPrefix)
    case NoteItem(_, _, _, _, _, _, _, _, _) => StartsWith(item.SK, NotePrefix) && item.noteId == item.SK
  }

  /** The profile sort key lies outside the note namespace. */
  lemma ProfileSortKeyIsNotANoteKey()
    ensures !StartsWith(ProfileSK, NotePrefix)
  {
    assert ProfileSK[0] != NotePrefix[0];
  }

  /** So no profile key is ever a note key, whatever the partitions. */
  lemma ProfileAndNoteKeysDisjoint(id: string, owner: string, sk: string)
    requires StartsWith(sk, NotePrefix)
    ensures (id, ProfileSK) != (owner, sk)
  {
    assert sk[0] == NotePrefix[0];
    ProfileSortKeyIsNotANoteKey();
  }

  /** Every item is stored under its own key. */
  predicate KeyedByOwnKey(items: map<Key, Item>)
  {
    forall k :: k in items ==> items[k].Key() == k
  }

  class Table {
    var items: map<Key, Item>

    predicate Valid()
      reads this
    {
      KeyedByOwnKey(items)
    }

    /** `Valid`, and every item has the shape the services write. */
    predicate WellFormed()
      reads this
    {
      Valid() && forall k :: k in items ==> Shaped(items[k])
    }

    constructor ()
      ensures WellFormed() && items == map[]
    {
      items := map[];
    }

    /** GetCommand: the item at `key`, or null. */
    function Get(key: Key): (r: Option<Item>)
      reads this
      ensures r.Some? <==> key in items
      ensures r.Some? ==> r.value == items[key]
    {
      if key in items then Some(items[key]) else None
    }

    /** PutCommand without a condition: writes the item, replacing any item at its key. */
    method Put(item: Item)
      requires Valid()
      modifies this
      ensures Valid()
      ensures items == old(items)[item.Key() := item]
    {
      items := items[item.Key() := item];
    }

    /** PutCommand with `attribute_not_exists(PK)`: the condition is evaluated against
        the item already stored under the same key, so the write fails exactly when
        that key is taken, and then nothing changes. */
    method PutIfAbsent(item: Item) returns (written: bool)
      requires Valid()
      modifies this
      ensures Valid()
      ensures written <==> item.Key() !in old(items)
      ensures items == if written then old(items)[item.Key() := item] else old(items)
    {
      written := item.Key() !in items;
      if written {
        items := items[item.Key() := item];
      }
    }

    /** DeleteCommand: removes the item at `key`; deleting an absent key is not an error. */
    method Delete(key: Key)
      requires Valid()
      modifies this
      ensures Valid()
      ensures items == old(items) - {key}
    {
      items := items - {key};
    }

    /** UpdateCommand `SET password = :password, updatedAt = :updatedAt` on a stored profile. */
    method SetPassword(key: Key, password: string, updatedAt: string)
      requires Valid() && key in items && items[key].Profile?
      modifies this
      ensures Valid()
      ensures items == old(items)[key := old(items)[key].(password := password, updatedAt := updatedAt)]
    {
      items := items[key := items[key].(password := password, updatedAt := updatedAt)];
    }

    /** The keys whose items satisfy `p`. */
    ghost function KeysWhere(p: Item -> bool): set<Key>
      reads this
    {
      set k | k in items && p(items[k])
    }

    /** The items a Query or a Scan returns: every stored item satisfying `p`, each once.
        The order of the result is not specified. */
    method Select(p: Item -> bool) returns (r: seq<Item>)
      requires Valid()
      ensures forall x :: x in r <==> x in items.Values && p(x)
      ensures NoDuplicates(r)
      ensures |r| == |KeysWhere(p)|
    {
      r := [];
      var todo := items.Keys;
      ghost var matched: set<Key> := {};
      while todo != {}
        invariant todo <= items.Keys
        invariant matched == set k | k in items && k !in todo && p(items[k])
        invariant forall i :: 0 <= i < |r| ==> r[i].Key() in matched && r[i] == items[r[i].Key()]
        invariant forall k :: k in matched ==> items[k] in r
        invariant NoDuplicates(r)
        invariant |r| == |matched|
        decreases |todo|
      {
        var k :| k in todo;
        if p(items[k]) {
          assert k !in matched;
          forall i | 0 <= i < |r| ensures r[i] != items[k] {
            assert r[i].Key() in matched;
          }
          r := r + [items[k]];
          matched := matched + {k};
        }
        todo := todo - {k};
      }
      assert matched == KeysWhere(p);
      forall x | x in items.Values && p(x) ensures x in r {
        var k :| k in items && items[k] == x;
        assert k in matched;
      }
    }
  }
}
