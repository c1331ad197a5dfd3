/** The persistent playlist and ambience libraries (bot/content_manager.py). Each
    JSON file is modelled as the dict it holds: playlists map a name to a dict of
    url to title, the ambience library maps a name to a url. */
module ContentManager {
  import opened Values

  /** `[{"url": u, "name": t} for u, t in playlist_dict.items()]`, on the dict's
      entries. */
  function Tracklist(entries: seq<(string, Value)>): (r: seq<Track>)
    ensures |r| == |entries|
    ensures forall i :: 0 <= i < |r| ==> r[i].url == entries[i].0 && r[i].name == entries[i].1
  {
    if entries == [] then [] else [Track(entries[0].0, entries[0].1)] + Tracklist(entries[1..])
  }

  /** The `len()` of a value, or the TypeError for an unsized one. */
  function Len(v: Value): Result<nat>
  {
    match v
    case VStr(s) => Ok(|s|)
    case VList(items) => Ok(|items|)
    case VTuple(elems) => Ok(|elems|)
    case VDict(entries) => Ok(|entries|)
    case _ => Err(PyError("TypeError", "object of type '" + TypeName(v) + "' has no len()"))
  }

  class ContentManager {
    /** The playlist file. */
    var playlists: seq<(string, Value)>
    /** The ambience file. */
    var ambience: seq<(string, Value)>

    ghost predicate Valid()
      reads this
    {
      UniqueKeys(playlists)
    }

    /** Both files exist after construction; a missing one starts as `{}`. */
    constructor (playlistFile: Option<seq<(string, Value)>>, ambienceFile: Option<seq<(string, Value)>>)
      requires playlistFile.Some? ==> UniqueKeys(playlistFile.value)
      ensures Valid()
      ensures playlists == (if playlistFile.Some? then playlistFile.value else [])
      ensures ambience == (if ambienceFile.Some? then ambienceFile.value else [])
    {
      playlists := if playlistFile.Some? then playlistFile.value else [];
      ambience := if ambienceFile.Some? then ambienceFile.value else [];
    }

    /** `playlist_to_tracklist`: one track per entry, in the dict's order; anything
        but a dict has no `.items`. */
    static function PlaylistToTracklist(playlistDict: Value): (r: Result<seq<Track>>)
      ensures r.Ok? <==> playlistDict.VDict?
      ensures !playlistDict.VDict? ==> r == Err(NoAttribute(playlistDict, "items"))
      ensures r.Ok? ==> |r.value| == |playlistDict.entries|
      ensures r.Ok? ==> forall i :: 0 <= i < |r.value| ==>
        r.value[i] == Track(playlistDict.entries[i].0, playlistDict.entries[i].1)
    {
      if playlistDict.VDict? then Ok(Tracklist(playlistDict.entries)) else Err(NoAttribute(playlistDict, "items"))
    }

    /** `get_playlists`: the library as the file holds it, one entry per name, and
        the one `get_playlist` looks names up in. */
    function GetPlaylists(): (r: seq<(string, Value)>)
      reads this
      ensures Valid() ==> UniqueKeys(r)
      ensures forall name :: Values.Get(r, name) == GetPlaylist(name)
    {
      playlists
    }

    /** `get_playlist`: the named playlist, or None. */
    function GetPlaylist(name: string): (r: Option<Value>)
      reads this
      ensures r.Some? <==> HasKey(playlists, name)
      ensures r.Some? ==> (name, r.value) in playlists
    {
      GetHasKey(playlists, name);
      Values.Get(playlists, name)
    }

    /** `save_playlist`: the name is bound to the data and every other playlist is
        kept; the file is written before the log line takes `len(playlist_data)`, so
        unsized data is saved and then raises. */
    method SavePlaylist(name: string, playlistData: Value) returns (o: Outcome)
      requires Valid()
      modifies this`playlists
      ensures Valid()
      ensures playlists == Put(old(playlists), name, playlistData)
      ensures GetPlaylist(name) == Some(playlistData)
      ensures forall other :: other != name ==> GetPlaylist(other) == old(GetPlaylist(other))
      ensures o.Raised? <==> Len(playlistData).Err?
      ensures o.Raised? ==> o.error == Len(playlistData).error
    {
      PutKeys(playlists, name, playlistData);
      forall other ensures Values.Get(Put(playlists, name, playlistData), other) ==
        (if other == name then Some(playlistData) else Values.Get(playlists, other))
      {
        PutGet(playlists, name, playlistData, other);
      }
      playlists := Put(playlists, name, playlistData);
      var n := Len(playlistData);
      if n.Err? {
        return Raised(n.error);
      }
      return Completed;
    }

    function GetAmbience(): seq<(string, Value)>
      reads this
    {
      ambience
    }

    /** `save_ambience`: a dict replaces the whole library; anything else writes
        nothing. */
    method SaveAmbience(ambienceDict: Value)
      modifies this`ambience
      ensures ambienceDict.VDict? ==> ambience == ambienceDict.entries
      ensures !ambienceDict.VDict? ==> ambience == old(ambience)
    {
      if !ambienceDict.VDict? {
        return;
      }
      ambience := ambienceDict.entries;
    }
  }

  /** Saving a playlist and reading the library back as tracks gives the saved
      entries as {url, name} pairs in order. */
  lemma SavedPlaylistTracks(store: seq<(string, Value)>, name: string, entries: seq<(string, Value)>)
    ensures var saved := Values.Get(Put(store, name, VDict(entries)), name);
      && saved == Some(VDict(entries))
      && ContentManager.PlaylistToTracklist(saved.value) == Ok(Tracklist(entries))
      && |Tracklist(entries)| == |entries|
  {
    PutGet(store, name, VDict(entries), name);
  }
}
