/**
 * The password entries and the list operations the client performs on them: create (append),
 * edit (map by id), soft-delete (map by id, setting the tombstone) and the active listing
 * (filter on not deleted). Ids are not assumed unique: the by-id operations apply to every
 * entry whose id matches.
 */
module Entries {

  datatype PasswordEntry = PasswordEntry(
    id: string,
    name: string,
    password: string,
    url: string,
    description: string,
    lastModified: int,
    deleted: bool,
    version: int)

  /** Adding an entry: one new live entry at version 1 is appended after all existing ones. */
  function Create(entries: seq<PasswordEntry>, id: string, name: string, password: string,
                  url: string, description: string, now: int): (r: seq<PasswordEntry>)
    ensures |r| == |entries| + 1 && r[..|entries|] == entries
    ensures var e := r[|entries|];
      e.id == id && e.name == name && e.password == password && e.url == url
      && e.description == description && e.lastModified == now && !e.deleted && e.version == 1
  {
    entries + [PasswordEntry(id, name, password, url, description, now, false, 1)]
  }

  /**
   * Editing: every entry with the given id gets the new name, password, url and description
   * and the new timestamp; its id, tombstone and version stay. All other entries are unchanged.
   */
  function Edit(entries: seq<PasswordEntry>, id: string, name: string, password: string,
                url: string, description: string, now: int): (r: seq<PasswordEntry>)
    ensures |r| == |entries|
    ensures forall i :: 0 <= i < |r| ==>
      r[i].id == entries[i].id && r[i].deleted == entries[i].deleted && r[i].version == entries[i].version
    ensures forall i :: 0 <= i < |r| && entries[i].id == id ==>
      r[i].name == name && r[i].password == password && r[i].url == url
      && r[i].description == description && r[i].lastModified == now
    ensures forall i :: 0 <= i < |r| && entries[i].id != id ==> r[i] == entries[i]
  {
    if entries == [] then []
    else
      var e := entries[0];
      var e' := if e.id == id
        then e.(name := name, password := password, url := url, description := description, lastModified := now)
        else e;
      [e'] + Edit(entries[1..], id, name, password, url, description, now)
  }

  /**
   * Soft-deleting: every entry with the given id becomes a tombstone with the new timestamp,
   * all its other fields kept. Nothing is removed and all other entries are unchanged.
   */
  function SoftDelete(entries: seq<PasswordEntry>, id: string, now: int): (r: seq<PasswordEntry>)
    ensures |r| == |entries|
    ensures forall i :: 0 <= i < |r| && entries[i].id == id ==>
      r[i] == entries[i].(deleted := true, lastModified := now)
    ensures forall i :: 0 <= i < |r| && entries[i].id != id ==> r[i] == entries[i]
  {
    if entries == [] then []
    else
      var e := entries[0];
      var e' := if e.id == id then e.(deleted := true, lastModified := now) else e;
      [e'] + SoftDelete(entries[1..], id, now)
  }

  /** The entries shown to the user: those that are not tombstones, in list order. */
  function Active(entries: seq<PasswordEntry>): (r: seq<PasswordEntry>)
    ensures |r| <= |entries|
    ensures forall e :: e in r <==> e in entries && !e.deleted
  {
    if entries == [] then []
    else if entries[0].deleted then Active(entries[1..])
    else [entries[0]] + Active(entries[1..])
  }

  /** The active listing is the order-preserving filter: it distributes over concatenation. */
  lemma {:induction false} ActiveAppend(a: seq<PasswordEntry>, b: seq<PasswordEntry>)
    ensures Active(a + b) == Active(a) + Active(b)
  {
    if a == [] {
      assert a + b == b;
    } else {
      assert (a + b)[0] == a[0];
      assert (a + b)[1..] == a[1..] + b;
      ActiveAppend(a[1..], b);
    }
  }

  /** A created entry is shown, last, and the shown count grows by one. */
  lemma CreateIsShownLast(entries: seq<PasswordEntry>, id: string, name: string, password: string,
                          url: string, description: string, now: int)
    ensures var r := Create(entries, id, name, password, url, description, now);
      Active(r) == Active(entries) + [r[|entries|]]
      && |Active(r)| == |Active(entries)| + 1
  {
    var r := Create(entries, id, name, password, url, description, now);
    ActiveAppend(entries, [r[|entries|]]);
    assert r == entries + [r[|entries|]];
  }

  /** The entries shown after an edit are the edited shown entries: editing never hides or reveals one. */
  lemma {:induction false} EditCommutesWithActive(entries: seq<PasswordEntry>, id: string, name: string,
                                                  password: string, url: string, description: string, now: int)
    ensures Active(Edit(entries, id, name, password, url, description, now))
         == Edit(Active(entries), id, name, password, url, description, now)
    ensures |Active(Edit(entries, id, name, password, url, description, now))| == |Active(entries)|
  {
    if entries != [] {
      var r := Edit(entries, id, name, password, url, description, now);
      assert r[1..] == Edit(entries[1..], id, name, password, url, description, now);
      EditCommutesWithActive(entries[1..], id, name, password, url, description, now);
    }
  }

  /** The reference for what soft-delete does to the listing: the shown entries without that id. */
  function WithoutId(entries: seq<PasswordEntry>, id: string): (r: seq<PasswordEntry>)
    ensures forall e :: e in r <==> e in entries && e.id != id
  {
    if entries == [] then []
    else if entries[0].id == id then WithoutId(entries[1..], id)
    else [entries[0]] + WithoutId(entries[1..], id)
  }

  /** After soft-deleting an id, the listing is the previous listing with that id filtered out. */
  lemma {:induction false} SoftDeleteHidesFromActive(entries: seq<PasswordEntry>, id: string, now: int)
    ensures Active(SoftDelete(entries, id, now)) == WithoutId(Active(entries), id)
    ensures forall e :: e in Active(SoftDelete(entries, id, now)) ==> e.id != id
  {
    if entries != [] {
      var r := SoftDelete(entries, id, now);
      assert r[1..] == SoftDelete(entries[1..], id, now);
      SoftDeleteHidesFromActive(entries[1..], id, now);
    }
  }

  /**
   * Retention: every entry that had the id is still in the full list, as a tombstone, so the
   * list pushed by the next sync carries the deletion.
   */
  lemma SoftDeleteRetainsTombstone(entries: seq<PasswordEntry>, id: string, now: int, e: PasswordEntry)
    requires e in entries && e.id == id
    ensures e.(deleted := true, lastModified := now) in SoftDelete(entries, id, now)
    ensures e.(deleted := true, lastModified := now) !in Active(SoftDelete(entries, id, now))
  {
    var i :| 0 <= i < |entries| && entries[i] == e;
    assert SoftDelete(entries, id, now)[i] == e.(deleted := true, lastModified := now);
  }

  /** Editing or deleting an id no entry carries leaves the list as it was. */
  lemma UnknownIdIsNoOp(entries: seq<PasswordEntry>, id: string, name: string, password: string,
                        url: string, description: string, now: int)
    requires forall e :: e in entries ==> e.id != id
    ensures Edit(entries, id, name, password, url, description, now) == entries
    ensures SoftDelete(entries, id, now) == entries
  {
    assert forall i :: 0 <= i < |entries| ==> entries[i] in entries;
  }

  /** Deleting the same id twice is the same as deleting it once, at the later time. */
  lemma SoftDeleteTwice(entries: seq<PasswordEntry>, id: string, first: int, second: int)
    ensures SoftDelete(SoftDelete(entries, id, first), id, second) == SoftDelete(entries, id, second)
  {
  }
}
