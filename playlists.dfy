/** The dashboard's playlist library handlers (bot/playlists.py) over the playlist
    file, modelled as the dict it holds. */
module Playlists {
  import opened Values

  /** The type `hash` first refuses in a dict key, if any: a list or a dict is
      unhashable, and a tuple is hashed element by element. */
  function Unhashable(key: Value): (t: Option<string>)
    ensures key.VList? ==> t == Some("list")
    ensures key.VDict? ==> t == Some("dict")
    ensures !key.VList? && !key.VDict? && !key.VTuple? ==> t.None?
    ensures t.Some? ==> t.value == "list" || t.value == "dict"
    decreases key, 1
  {
    match key
    case VList(_) => Some("list")
    case VDict(_) => Some("dict")
    case VTuple(elems) => FirstUnhashable(elems, key)
    case _ => None
  }

  function FirstUnhashable(elems: seq<Value>, ghost parent: Value): (t: Option<string>)
    requires forall x :: x in elems ==> x < parent
    ensures t.Some? ==> t.value == "list" || t.value == "dict"
    decreases parent, 0, |elems|
  {
    if elems == [] then None
    else
      assert elems[0] in elems;
      assert forall x :: x in elems[1..] ==> x in elems;
      match Unhashable(elems[0])
      case Some(t) => Some(t)
      case None => FirstUnhashable(elems[1..], parent)
  }

  /** The error `d[key] = v` raises for an unhashable key. */
  function UnhashableError(t: string): PyError
  {
    PyError("TypeError", "unhashable type: '" + t + "'")
  }

  /** How `json.dump` writes a dict key: a string as itself, a bool as `true` or
      `false`, None as `null`, an int in decimal; any other key makes it raise. */
  function JsonKey(key: Value): (r: Result<string>)
    ensures r.Ok? <==> !(key.VList? || key.VTuple? || key.VDict?)
    ensures key.VStr? ==> r == Ok(key.s)
    ensures key.VInt? ==> r == Ok(Str(key))
    ensures key.VBool? ==> r.Ok? && r.value != Str(key)
    ensures r.Err? ==> r.error.kind == "TypeError"
  {
    match key
    case VStr(s) => Ok(s)
    case VBool(b) => Ok(if b then "true" else "false")
    case VNone => Ok("null")
    case VInt(_) => Ok(Str(key))
    case _ => Err(PyError("TypeError", "keys must be str, int, float, bool or None, not " + TypeName(key)))
  }

  class PlaylistLibrary {
    /** The playlist file: name to {url: title}. */
    var store: seq<(string, Value)>

    ghost predicate Valid()
      reads this
    {
      UniqueKeys(store)
    }

    constructor (file: seq<(string, Value)>)
      requires UniqueKeys(file)
      ensures Valid() && store == file
    {
      store := file;
    }

    /** `send_playlists`: the stored library as it is. */
    method SendPlaylists() returns (r: seq<(string, Value)>)
      ensures r == store
    {
      r := store;
    }

    /** `save_playlist(data)`: a request without a truthy "name" or whose "data" is
        not a dict gets the ERROR reply and the file is left alone. Otherwise the
        library is loaded, the name bound to the data and the library written back.
        The loaded keys are all strings, so a name of another type is always a new
        entry of the in-memory dict, and the reply (its size) counts it; in the file
        it is written under its JSON spelling, and reading the file back keeps one
        entry per spelling, the last one written winning. An unhashable name raises
        before the file is touched, and a tuple name makes the write raise. */
    method SavePlaylist(data: Value) returns (r: Result<Value>)
      requires Valid()
      modifies this`store
      ensures Valid()
      ensures !data.VDict? ==> r == Err(NoAttribute(data, "get")) && store == old(store)
      ensures data.VDict? && !IsValidRequest(data.entries) ==>
        r == Ok(ErrorReply("Invalid playlist data")) && store == old(store)
      ensures data.VDict? && IsValidRequest(data.entries) && Unhashable(GetOr(data.entries, "name", VNone)).Some? ==>
        r == Err(UnhashableError(Unhashable(GetOr(data.entries, "name", VNone)).value)) && store == old(store)
      ensures data.VDict? && IsValidRequest(data.entries) ==>
        var name := GetOr(data.entries, "name", VNone);
        Unhashable(name).None? && JsonKey(name).Err? ==> r == Err(JsonKey(name).error) && store == old(store)
      ensures data.VDict? && IsValidRequest(data.entries) && JsonKey(GetOr(data.entries, "name", VNone)).Ok? ==>
        var name := GetOr(data.entries, "name", VNone);
        var key := JsonKey(name).value;
        && store == Put(old(store), key, GetOr(data.entries, "data", VNone))
        && Values.Get(store, key) == Some(GetOr(data.entries, "data", VNone))
        && (forall k :: k != key ==> Values.Get(store, k) == Values.Get(old(store), k))
        && |store| == (if HasKey(old(store), key) then |old(store)| else |old(store)| + 1)
        && r == Ok(VInt(if name.VStr? && HasKey(old(store), key) then |old(store)| else |old(store)| + 1))
        && (name.VStr? ==> r == Ok(VInt(|store|)))
    {
      if !data.VDict? {
        return Err(NoAttribute(data, "get"));
      }
      var name := GetOr(data.entries, "name", VNone);
      var playlistData := GetOr(data.entries, "data", VNone);
      if !Truthy(name) || !playlistData.VDict? {
        return Ok(ErrorReply("Invalid playlist data"));
      }
      var playlists := store;
      var unhashable := Unhashable(name);
      if unhashable.Some? {
        return Err(UnhashableError(unhashable.value));
      }
      var size := if name.VStr? && HasKey(playlists, name.s) then |playlists| else |playlists| + 1;
      var key := JsonKey(name);
      if key.Err? {
        return Err(key.error);
      }
      PutKeys(playlists, key.value, playlistData);
      PutLength(playlists, key.value, playlistData);
      forall k ensures Values.Get(Put(playlists, key.value, playlistData), k) ==
        (if k == key.value then Some(playlistData) else Values.Get(playlists, k))
      {
        PutGet(playlists, key.value, playlistData, k);
      }
      store := Put(playlists, key.value, playlistData);
      return Ok(VInt(size));
    }
  }

  /** A save request names a playlist (truthily) and carries a dict of tracks. */
  predicate IsValidRequest(request: seq<(string, Value)>)
  {
    Truthy(GetOr(request, "name", VNone)) && GetOr(request, "data", VNone).VDict?
  }

  /** Saving under a new name adds one playlist; saving under an existing name keeps
      the count and replaces the tracks; a request missing either field is rejected. */
  lemma SaveRequestCases(store: seq<(string, Value)>, name: string, tracks: seq<(string, Value)>)
    requires name != ""
    ensures var request := [("name", VStr(name)), ("data", VDict(tracks))];
      && IsValidRequest(request)
      && |Put(store, name, VDict(tracks))| == (if HasKey(store, name) then |store| else |store| + 1)
      && !IsValidRequest([("name", VStr(name))])
      && !IsValidRequest([("name", VStr("")), ("data", VDict(tracks))])
      && !IsValidRequest([("name", VStr(name)), ("data", VList([]))])
  {
    var request := [("name", VStr(name)), ("data", VDict(tracks))];
    GetFirst(request, "name", 0);
    GetFirst(request, "data", 1);
    PutLength(store, name, VDict(tracks));
    GetFirst([("name", VStr("")), ("data", VDict(tracks))], "name", 0);
    GetFirst([("name", VStr(name)), ("data", VList([]))], "data", 1);
    GetHasKey([("name", VStr(name))], "data");
  }
}
