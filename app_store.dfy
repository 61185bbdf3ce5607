/** The application store: cached copies of the service's collections, the
    current selections, a loading flag and the last error message. Each action
    calls the service and then rebuilds its cached array itself, by prepending,
    mapping or filtering, instead of reading the service's array again. */
module AppStore {
  import opened Wrappers
  import opened Records
  import opened Database

  class Store {
    /** The single service instance the store talks to. */
    const db: SimpleDatabase
    var sheets: seq<Record>
    var playlists: seq<Record>
    var currentSheet: Option<Record>
    var currentPlaylist: Option<Record>
    var loading: bool
    var error: Option<string>

    constructor (db: SimpleDatabase)
      ensures this.db == db
      ensures sheets == [] && playlists == []
      ensures currentSheet == None && currentPlaylist == None
      ensures !loading && error == None
    {
      this.db := db;
      sheets := [];
      playlists := [];
      currentSheet := None;
      currentPlaylist := None;
      loading := false;
      error := None;
    }

    /** The cached arrays equal the service's. */
    predicate Mirrors()
      reads this, db
    {
      sheets == db.sheets && playlists == db.playlists
    }

    /** Loads the service and copies both collections. The outcome of the
        service's `init` is not looked at, so a failed load is not reported. */
    method Initialize()
      modifies this`sheets, this`playlists, this`loading, db`sheets, db`playlists, db`initialized
      ensures var r := InitResult(old(db.initialized), db.storage, old(db.sheets), old(db.playlists));
              db.initialized == r.initialized && db.sheets == r.sheets && db.playlists == r.playlists
      ensures Mirrors()
      ensures !loading
    {
      loading := true;
      var _ := db.Init();
      sheets := db.GetAllSheets();
      playlists := db.GetAllPlaylists();
      loading := false;
    }

    method AddSheet(data: Record, stamp: Stamp) returns (doc: Record)
      modifies this`sheets, db`sheets, db`storage
      ensures doc == NewSheet(data, stamp)
      ensures db.sheets == [doc] + old(db.sheets)
      ensures db.storage == Save(old(db.storage), db.sheets, db.playlists)
      ensures sheets == [doc] + old(sheets)
      ensures old(Mirrors()) ==> Mirrors()
    {
      doc := db.AddSheet(data, stamp);
      sheets := [doc] + sheets;
    }

    method UpdateSheet(id: Value, updates: Record, updatedAt: string) returns (res: Result<Record, string>)
      modifies this`sheets, this`error, db`sheets, db`storage
      ensures res.Failure? <==> FindIndex(old(db.sheets), id) == -1
      ensures res.Failure? ==>
                && res.error == "Sheet not found" && error == Some(res.error)
                && sheets == old(sheets) && db.sheets == old(db.sheets) && db.storage == old(db.storage)
      ensures res.Success? ==>
                var i := FindIndex(old(db.sheets), id);
                && db.sheets == old(db.sheets)[i := Merge(old(db.sheets)[i], updates, updatedAt)]
                && res.value == db.sheets[i]
                && db.storage == Save(old(db.storage), db.sheets, db.playlists)
                && sheets == ReplaceAll(old(sheets), id, res.value)
                && error == old(error)
      // the mirror survives an update only because ids are unique
      ensures old(Mirrors()) && UniqueIds(old(db.sheets)) ==> Mirrors()
    {
      ghost var mirrored := Mirrors() && UniqueIds(db.sheets);
      res := db.UpdateSheet(id, updates, updatedAt);
      match res
      case Failure(msg) =>
        error := Some(msg);
      case Success(updated) =>
        if mirrored {
          ReplaceAllIsReplaceFirst(sheets, id, updated);
        }
        sheets := ReplaceAll(sheets, id, updated);
    }

    method DeleteSheet(id: Value)
      modifies this`sheets, db`sheets, db`storage
      ensures db.sheets == WithoutId(old(db.sheets), id)
      ensures db.storage == Save(old(db.storage), db.sheets, db.playlists)
      ensures sheets == WithoutId(old(sheets), id)
      ensures old(Mirrors()) ==> Mirrors()
    {
      db.DeleteSheet(id);
      sheets := WithoutId(sheets, id);
    }

    method SetCurrentSheet(sheet: Option<Record>)
      modifies this`currentSheet
      ensures currentSheet == sheet
    {
      currentSheet := sheet;
    }

    method AddPlaylist(name: Value, sheetIds: Value, stamp: Stamp) returns (doc: Record)
      modifies this`playlists, db`playlists, db`storage
      ensures doc == NewPlaylist(name, sheetIds, stamp)
      ensures db.playlists == [doc] + old(db.playlists)
      ensures db.storage == Save(old(db.storage), db.sheets, db.playlists)
      ensures playlists == [doc] + old(playlists)
      ensures old(Mirrors()) ==> Mirrors()
    {
      doc := db.AddPlaylist(name, sheetIds, stamp);
      playlists := [doc] + playlists;
    }

    method UpdatePlaylist(id: Value, updates: Record, updatedAt: string) returns (res: Result<Record, string>)
      modifies this`playlists, this`error, db`playlists, db`storage
      ensures res.Failure? <==> FindIndex(old(db.playlists), id) == -1
      ensures res.Failure? ==>
                && res.error == "Playlist not found" && error == Some(res.error)
                && playlists == old(playlists) && db.playlists == old(db.playlists) && db.storage == old(db.storage)
      ensures res.Success? ==>
                var i := FindIndex(old(db.playlists), id);
                && db.playlists == old(db.playlists)[i := Merge(old(db.playlists)[i], updates, updatedAt)]
                && res.value == db.playlists[i]
                && db.storage == Save(old(db.storage), db.sheets, db.playlists)
                && playlists == ReplaceAll(old(playlists), id, res.value)
                && error == old(error)
      ensures old(Mirrors()) && UniqueIds(old(db.playlists)) ==> Mirrors()
    {
      ghost var mirrored := Mirrors() && UniqueIds(db.playlists);
      res := db.UpdatePlaylist(id, updates, updatedAt);
      match res
      case Failure(msg) =>
        error := Some(msg);
      case Success(updated) =>
        if mirrored {
          ReplaceAllIsReplaceFirst(playlists, id, updated);
        }
        playlists := ReplaceAll(playlists, id, updated);
    }

    method DeletePlaylist(id: Value)
      modifies this`playlists, db`playlists, db`storage
      ensures db.playlists == WithoutId(old(db.playlists), id)
      ensures db.storage == Save(old(db.storage), db.sheets, db.playlists)
      ensures playlists == WithoutId(old(playlists), id)
      ensures old(Mirrors()) ==> Mirrors()
    {
      db.DeletePlaylist(id);
      playlists := WithoutId(playlists, id);
    }

    method SetCurrentPlaylist(playlist: Option<Record>)
      modifies this`currentPlaylist
      ensures currentPlaylist == playlist
    {
      currentPlaylist := playlist;
    }

    method ClearError()
      modifies this`error
      ensures error == None
    {
      error := None;
    }
  }
}
