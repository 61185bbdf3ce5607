/** The persistence service: two newest-first collections held in memory and
    written in full to a key-value storage after every change. */
module Database {
  import opened Wrappers
  import opened Seqs
  import opened Records
  import Strings

  /** What the storage holds under one key: the JSON text of a collection, or
      text that `JSON.parse` rejects. */
  datatype Stored = Serialized(records: seq<Record>) | Unparsable(raw: string)

  type Storage = map<string, Stored>

  const SheetsKey := "sheets"
  const PlaylistsKey := "playlists"

  /** The clock readings one insertion takes: `Date.now()` for the id, and two
      separate readings for the creation and update timestamps. */
  datatype Stamp = Stamp(millis: nat, createdAt: string, updatedAt: string)

  /** `if (item)` after reading a key: a missing key reads as null, and an
      empty string is falsy as well. */
  predicate Present(storage: Storage, key: string)
  {
    key in storage && storage[key] != Unparsable("")
  }

  /** A key holds text that would be parsed and that `JSON.parse` throws on. */
  predicate Corrupt(storage: Storage, key: string)
  {
    Present(storage, key) && storage[key].Unparsable?
  }

  /** The storage after both collections are written. */
  function Save(storage: Storage, sheets: seq<Record>, playlists: seq<Record>): Storage
  {
    storage[SheetsKey := Serialized(sheets)][PlaylistsKey := Serialized(playlists)]
  }

  /** Saving again overwrites both keys, so only the last save shows. */
  lemma SaveTwice(storage: Storage, s0: seq<Record>, p0: seq<Record>, sheets: seq<Record>, playlists: seq<Record>)
    ensures Save(Save(storage, s0, p0), sheets, playlists) == Save(storage, sheets, playlists)
  {
  }

  /** The storage holds exactly these two collections. */
  predicate Saved(storage: Storage, sheets: seq<Record>, playlists: seq<Record>)
  {
    && SheetsKey in storage && storage[SheetsKey] == Serialized(sheets)
    && PlaylistsKey in storage && storage[PlaylistsKey] == Serialized(playlists)
  }

  /** The field kept as it was, the parsed collection, or the parse error. */
  function Parse(storage: Storage, key: string, current: seq<Record>): Result<seq<Record>, string>
  {
    if !Present(storage, key) then Success(current)
    else match storage[key]
      case Serialized(rs) => Success(rs)
      case Unparsable(_) => Failure("SyntaxError")
  }

  /** What `init` returns and what it leaves in the three fields it sets. */
  datatype Loaded = Loaded(ok: bool, initialized: bool, sheets: seq<Record>, playlists: seq<Record>)

  /** The effect of `init` from a given state: the specification of `SimpleDatabase.Init`. */
  function InitResult(initialized: bool, storage: Storage, sheets: seq<Record>, playlists: seq<Record>): (r: Loaded)
    // idempotent: a second call succeeds and changes nothing
    ensures initialized ==> r == Loaded(true, true, sheets, playlists)
    // `initialized` is set exactly when loading succeeds
    ensures r.initialized == r.ok
    ensures !initialized ==> (r.ok <==> !Corrupt(storage, SheetsKey) && !Corrupt(storage, PlaylistsKey))
    // absent keys leave the collections as they were
    ensures !initialized && !Present(storage, SheetsKey) ==> r.sheets == sheets
    ensures !initialized && (!Present(storage, PlaylistsKey) || Corrupt(storage, SheetsKey)) ==> r.playlists == playlists
    // a parse failure keeps the collection it was loading
    ensures !initialized && Corrupt(storage, SheetsKey) ==> r.sheets == sheets
    ensures !initialized && Corrupt(storage, PlaylistsKey) ==> r.playlists == playlists
    // a saved collection is loaded back; sheets are loaded even when the playlists then fail to parse
    ensures !initialized && SheetsKey in storage && storage[SheetsKey].Serialized? ==> r.sheets == storage[SheetsKey].records
    ensures !initialized && !Corrupt(storage, SheetsKey) && PlaylistsKey in storage && storage[PlaylistsKey].Serialized? ==>
              r.playlists == storage[PlaylistsKey].records
  {
    if initialized then Loaded(true, true, sheets, playlists)
    else match Parse(storage, SheetsKey, sheets)
      case Failure(_) => Loaded(false, false, sheets, playlists)
      case Success(s) =>
        match Parse(storage, PlaylistsKey, playlists)
        case Failure(_) => Loaded(false, false, s, playlists)
        case Success(p) => Loaded(true, true, s, p)
  }

  /** Restarting over what a session saved restores both collections. */
  lemma InitRestoresSaved(storage: Storage, sheets: seq<Record>, playlists: seq<Record>, s0: seq<Record>, p0: seq<Record>)
    requires Saved(storage, sheets, playlists)
    ensures InitResult(false, storage, s0, p0) == Loaded(true, true, sheets, playlists)
  {
  }

  function SheetId(millis: nat): Value
  {
    Text("sheet_" + Strings.Decimal(millis))
  }

  function PlaylistId(millis: nat): Value
  {
    Text("playlist_" + Strings.Decimal(millis))
  }

  /** Ids made from the clock collide exactly when two insertions read the
      same millisecond. */
  lemma SheetIdsCollideOnSameMillisecond(m: nat, n: nat)
    ensures SheetId(m) == SheetId(n) <==> m == n
  {
    Strings.PrefixedDecimalInjective("sheet_", m, n);
  }

  lemma PlaylistIdsCollideOnSameMillisecond(m: nat, n: nat)
    ensures PlaylistId(m) == PlaylistId(n) <==> m == n
  {
    Strings.PrefixedDecimalInjective("playlist_", m, n);
  }

  /** The document `addSheet` builds from the caller's data. */
  function NewSheet(data: Record, stamp: Stamp): Record
  {
    map[
      "_id" := SheetId(stamp.millis),
      "type" := Text("sheet"),
      "name" := Field(data, "name"),
      "fileType" := Field(data, "fileType"),
      "fileData" := Field(data, "fileData"),
      "annotations" := List([]),
      "createdAt" := Text(stamp.createdAt),
      "updatedAt" := Text(stamp.updatedAt)
    ]
  }

  /** A new sheet has a clock-made id, no annotations, the caller's name, type
      and data, the two timestamps, and no other field. */
  lemma NewSheetFields(data: Record, stamp: Stamp)
    ensures var doc := NewSheet(data, stamp);
            && HasId(doc, SheetId(stamp.millis))
            && Field(doc, "type") == Text("sheet")
            && Field(doc, "name") == Field(data, "name")
            && Field(doc, "fileType") == Field(data, "fileType")
            && Field(doc, "fileData") == Field(data, "fileData")
            && Field(doc, "annotations") == List([])
            && Field(doc, "createdAt") == Text(stamp.createdAt)
            && Field(doc, "updatedAt") == Text(stamp.updatedAt)
            && doc.Keys == {"_id", "type", "name", "fileType", "fileData", "annotations", "createdAt", "updatedAt"}
  {
  }

  /** The document `addPlaylist` builds; an omitted `sheetIds` defaults to `[]`. */
  function NewPlaylist(name: Value, sheetIds: Value, stamp: Stamp): Record
  {
    map[
      "_id" := PlaylistId(stamp.millis),
      "type" := Text("playlist"),
      "name" := name,
      "sheetIds" := if sheetIds == Undefined then List([]) else sheetIds,
      "createdAt" := Text(stamp.createdAt),
      "updatedAt" := Text(stamp.updatedAt)
    ]
  }

  /** A new playlist has a clock-made id, the given name and sheet ids (an
      empty list when omitted), the two timestamps, and no other field. */
  lemma NewPlaylistFields(name: Value, sheetIds: Value, stamp: Stamp)
    ensures var doc := NewPlaylist(name, sheetIds, stamp);
            && HasId(doc, PlaylistId(stamp.millis))
            && Field(doc, "type") == Text("playlist")
            && Field(doc, "name") == name
            && Field(doc, "sheetIds") == (if sheetIds == Undefined then List([]) else sheetIds)
            && Field(doc, "createdAt") == Text(stamp.createdAt)
            && Field(doc, "updatedAt") == Text(stamp.updatedAt)
            && doc.Keys == {"_id", "type", "name", "sheetIds", "createdAt", "updatedAt"}
  {
  }

  /** The sheets whose `_id` is listed, in sheet-collection order. */
  function Listed(sheets: seq<Record>, ids: seq<Value>): (r: seq<Record>)
    ensures Sub(r, sheets)
    ensures forall x :: x in r <==> x in sheets && Field(x, "_id") in ids
    ensures forall x :: Field(x, "_id") in ids ==> multiset(r)[x] == multiset(sheets)[x]
  {
    var out := Filter(sheets, s => Field(s, "_id") in ids);
    SubMembers(out, sheets);
    assert forall x :: x in sheets && Field(x, "_id") in ids ==> multiset(out)[x] == multiset(sheets)[x] > 0;
    out
  }

  class SimpleDatabase {
    var sheets: seq<Record>
    var playlists: seq<Record>
    var initialized: bool
    /** The durable key-value store, outside the process. */
    var storage: Storage

    /** A service over whatever the storage already holds, not yet loaded. */
    constructor (storage: Storage)
      ensures this.sheets == [] && this.playlists == [] && !this.initialized
      ensures this.storage == storage
    {
      this.sheets := [];
      this.playlists := [];
      this.initialized := false;
      this.storage := storage;
    }

    /** The storage holds the current value of both collections. */
    predicate Persisted()
      reads this
    {
      Saved(storage, sheets, playlists)
    }

    method Init() returns (ok: bool)
      modifies this`sheets, this`playlists, this`initialized
      ensures var r := InitResult(old(initialized), storage, old(sheets), old(playlists));
              ok == r.ok && initialized == r.initialized && sheets == r.sheets && playlists == r.playlists
    {
      if initialized {
        return true;
      }
      var s := Parse(storage, SheetsKey, sheets);
      if s.Failure? {
        return false;
      }
      sheets := s.value;
      var p := Parse(storage, PlaylistsKey, playlists);
      if p.Failure? {
        return false;
      }
      playlists := p.value;
      initialized := true;
      ok := true;
    }

    method SaveToStorage()
      modifies this`storage
      ensures storage == Save(old(storage), sheets, playlists)
      ensures Persisted()
    {
      storage := storage[SheetsKey := Serialized(sheets)];
      storage := storage[PlaylistsKey := Serialized(playlists)];
    }

    /** A copy of the collection: a value, so later changes do not reach it. */
    method GetAllSheets() returns (r: seq<Record>)
      ensures r == sheets
    {
      r := sheets;
    }

    method AddSheet(data: Record, stamp: Stamp) returns (doc: Record)
      modifies this`sheets, this`storage
      ensures doc == NewSheet(data, stamp)
      ensures sheets == [doc] + old(sheets)
      ensures storage == Save(old(storage), sheets, playlists) && Persisted()
    {
      doc := NewSheet(data, stamp);
      sheets := [doc] + sheets;
      SaveToStorage();
    }

    method UpdateSheet(id: Value, updates: Record, updatedAt: string) returns (res: Result<Record, string>)
      modifies this`sheets, this`storage
      ensures var i := FindIndex(old(sheets), id);
              if i < 0 then
                res == Failure("Sheet not found") && sheets == old(sheets) && storage == old(storage)
              else
                && sheets == old(sheets)[i := Merge(old(sheets)[i], updates, updatedAt)]
                && res == Success(sheets[i])
                && storage == Save(old(storage), sheets, playlists) && Persisted()
    {
      var i := FindIndex(sheets, id);
      if i == -1 {
        return Failure("Sheet not found");
      }
      sheets := sheets[i := Merge(sheets[i], updates, updatedAt)];
      SaveToStorage();
      res := Success(sheets[i]);
    }

    method DeleteSheet(id: Value)
      modifies this`sheets, this`storage
      ensures sheets == WithoutId(old(sheets), id)
      ensures storage == Save(old(storage), sheets, playlists) && Persisted()
    {
      sheets := WithoutId(sheets, id);
      SaveToStorage();
    }

    function GetSheet(id: Value): (r: Option<Record>)
      reads this
      ensures r.None? <==> FindIndex(sheets, id) == -1
      ensures r.Some? ==> r.value == sheets[FindIndex(sheets, id)]
    {
      Find(sheets, id)
    }

    method GetAllPlaylists() returns (r: seq<Record>)
      ensures r == playlists
    {
      r := playlists;
    }

    method AddPlaylist(name: Value, sheetIds: Value, stamp: Stamp) returns (doc: Record)
      modifies this`playlists, this`storage
      ensures doc == NewPlaylist(name, sheetIds, stamp)
      ensures playlists == [doc] + old(playlists)
      ensures storage == Save(old(storage), sheets, playlists) && Persisted()
    {
      doc := NewPlaylist(name, sheetIds, stamp);
      playlists := [doc] + playlists;
      SaveToStorage();
    }

    method UpdatePlaylist(id: Value, updates: Record, updatedAt: string) returns (res: Result<Record, string>)
      modifies this`playlists, this`storage
      ensures var i := FindIndex(old(playlists), id);
              if i < 0 then
                res == Failure("Playlist not found") && playlists == old(playlists) && storage == old(storage)
              else
                && playlists == old(playlists)[i := Merge(old(playlists)[i], updates, updatedAt)]
                && res == Success(playlists[i])
                && storage == Save(old(storage), sheets, playlists) && Persisted()
    {
      var i := FindIndex(playlists, id);
      if i == -1 {
        return Failure("Playlist not found");
      }
      playlists := playlists[i := Merge(playlists[i], updates, updatedAt)];
      SaveToStorage();
      res := Success(playlists[i]);
    }

    method DeletePlaylist(id: Value)
      modifies this`playlists, this`storage
      ensures playlists == WithoutId(old(playlists), id)
      ensures storage == Save(old(storage), sheets, playlists) && Persisted()
    {
      playlists := WithoutId(playlists, id);
      SaveToStorage();
    }

    function GetPlaylist(id: Value): (r: Option<Record>)
      reads this
      ensures r.None? <==> FindIndex(playlists, id) == -1
      ensures r.Some? ==> r.value == playlists[FindIndex(playlists, id)]
    {
      Find(playlists, id)
    }

    /** The sheets a playlist lists, in sheet-collection order; ids with no
        sheet contribute nothing, and an unknown playlist gives none. */
    function GetPlaylistSheets(playlistId: Value): (r: seq<Record>)
      reads this
      requires GetPlaylist(playlistId).Some? ==> Field(GetPlaylist(playlistId).value, "sheetIds").List?
      ensures GetPlaylist(playlistId).None? ==> r == []
      ensures Sub(r, sheets)
      ensures GetPlaylist(playlistId).Some? ==>
                var ids := Field(GetPlaylist(playlistId).value, "sheetIds").items;
                && (forall x :: x in r <==> x in sheets && Field(x, "_id") in ids)
                && (forall x :: Field(x, "_id") in ids ==> multiset(r)[x] == multiset(sheets)[x])
    {
      match GetPlaylist(playlistId)
      case None => []
      case Some(p) => Listed(sheets, Field(p, "sheetIds").items)
    }

    method ClearAll()
      modifies this`sheets, this`playlists, this`storage
      ensures sheets == [] && playlists == []
      ensures storage == old(storage) - {SheetsKey, PlaylistsKey}
      ensures SheetsKey !in storage && PlaylistsKey !in storage
    {
      sheets := [];
      playlists := [];
      storage := storage - {SheetsKey};
      storage := storage - {PlaylistsKey};
    }
  }

  /** A later session: a new service over the storage an earlier one left,
      loaded with `init`, holds what the earlier one held. */
  method Reopen(previous: SimpleDatabase) returns (db: SimpleDatabase, ok: bool)
    requires previous.Persisted()
    ensures fresh(db) && ok && db.initialized
    ensures db.sheets == previous.sheets && db.playlists == previous.playlists
  {
    db := new SimpleDatabase(previous.storage);
    ok := db.Init();
  }
}
