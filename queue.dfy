/** The older playlist queue (bot/queue.py). It holds the same state as the
    current queue manager, but `set_tracks` takes only the list, never shuffles,
    and `get_current` does not pull a stray index back into range. */
module Queue {
  import opened Values
  import opened QueueSpec

  class MusicQueue {
    var playlistName: string
    var tracks: seq<Track>
    var currentIndex: nat
    var previousStack: seq<nat>
    var loopCurrent: bool
    var loopPlaylist: bool
    var originalOrder: seq<Track>

    /** The shown order is a permutation of the saved one, and the index and every
        remembered index point into it. */
    ghost predicate Valid()
      reads this
    {
      && multiset(tracks) == multiset(originalOrder)
      && (if tracks == [] then currentIndex == 0 else currentIndex < |tracks|)
      && (forall k :: 0 <= k < |previousStack| ==> previousStack[k] < |tracks|)
    }

    ghost predicate LoopModesExclusive()
      reads this
    {
      loopPlaylist == !loopCurrent
    }

    constructor ()
      ensures Valid() && LoopModesExclusive()
      ensures playlistName == "None" && tracks == [] && originalOrder == []
      ensures currentIndex == 0 && previousStack == []
      ensures !loopCurrent && loopPlaylist
    {
      playlistName := "None";
      tracks := [];
      currentIndex := 0;
      previousStack := [];
      loopCurrent := false;
      loopPlaylist := true;
      originalOrder := [];
    }

    /** Installs a track list as both the shown and the saved order, resets the index
        and clears the history. The playlist name is not touched. */
    method SetTracks(trackList: seq<Track>)
      requires Valid()
      modifies this`tracks, this`originalOrder, this`currentIndex, this`previousStack
      ensures Valid()
      ensures tracks == trackList && originalOrder == trackList
      ensures currentIndex == 0 && previousStack == []
      ensures !GetQueue().shuffleMode
    {
      tracks := trackList;
      originalOrder := trackList;
      currentIndex := 0;
      previousStack := [];
    }

    /** The track at the index, or None for an empty queue. */
    method GetCurrent() returns (r: Option<Track>)
      requires Valid()
      ensures r.None? <==> tracks == []
      ensures r.Some? ==> currentIndex < |tracks| && r.value == tracks[currentIndex]
    {
      if tracks == [] {
        return None;
      }
      return Some(tracks[currentIndex]);
    }

    /** Puts the current track first and the others in any order; the index stays. */
    method Shuffle()
      requires Valid()
      modifies this`tracks
      ensures Valid()
      ensures ShuffledAround(old(tracks), currentIndex, tracks)
      ensures old(tracks) == originalOrder && 0 < currentIndex && DistinctUrls(originalOrder) ==> GetQueue().shuffleMode
    {
      if tracks == [] || |tracks| <= 1 {
        return;
      }
      var current := tracks[currentIndex];
      var remaining := Without(tracks, currentIndex);
      var shuffled :| multiset(shuffled) == multiset(remaining);
      tracks := [current] + shuffled;
      assert tracks[1..] == shuffled;
      ShufflePermutes(old(tracks), currentIndex, tracks);
      if old(tracks) == originalOrder && 0 < currentIndex && DistinctUrls(originalOrder) {
        ShuffleChangesOrder(old(tracks), currentIndex, tracks);
      }
    }

    /** Restores the saved order and moves the index to the first track with the
        current track's URL; does nothing when there is no saved order. */
    method Unshuffle()
      requires Valid()
      modifies this`tracks, this`currentIndex
      ensures Valid()
      ensures old(originalOrder) == [] ==> tracks == old(tracks) && currentIndex == old(currentIndex)
      ensures old(originalOrder) != [] ==>
        && tracks == originalOrder
        && Some(currentIndex) == FirstUrlIndex(originalOrder, old(tracks[currentIndex]).url)
      ensures old(originalOrder) != [] ==> !GetQueue().shuffleMode
    {
      if originalOrder == [] {
        return;
      }
      var currentTrack := GetCurrent();
      var url := currentTrack.value.url;
      UnshuffleFinds(tracks, originalOrder, currentIndex);
      tracks := originalOrder;
      var i := 0;
      while i < |tracks|
        invariant 0 <= i <= |tracks|
        invariant forall j :: 0 <= j < i ==> tracks[j].url != url
        invariant currentIndex == old(currentIndex)
      {
        if tracks[i].url == url {
          currentIndex := i;
          break;
        }
        i := i + 1;
      }
    }

    /** Same stepping as the current queue: a looping track repeats, otherwise push
        the index and step on, wrapping or stopping at the end. */
    method NextTrack() returns (r: Option<Track>)
      requires Valid()
      modifies this`currentIndex, this`previousStack
      ensures Valid()
      ensures tracks == [] ==> r == None && currentIndex == old(currentIndex) && previousStack == old(previousStack)
      ensures tracks != [] && loopCurrent ==>
        r == Some(tracks[currentIndex]) && currentIndex == old(currentIndex) && previousStack == old(previousStack)
      ensures tracks != [] && !loopCurrent ==>
        && previousStack == old(previousStack) + [old(currentIndex)]
        && currentIndex == NextIndex(old(currentIndex), |tracks|, loopPlaylist)
        && r == Some(tracks[currentIndex])
    {
      if tracks == [] {
        return None;
      }
      if loopCurrent {
        r := GetCurrent();
        return;
      }
      previousStack := previousStack + [currentIndex];
      currentIndex := currentIndex + 1;
      if currentIndex >= |tracks| {
        if loopPlaylist {
          currentIndex := 0;
        } else {
          currentIndex := |tracks| - 1;
        }
      }
      r := GetCurrent();
    }

    /** Pops the history into the index, or returns None and changes nothing. */
    method PreviousTrack() returns (r: Option<Track>)
      requires Valid()
      modifies this`currentIndex, this`previousStack
      ensures Valid()
      ensures old(previousStack) == [] ==> r == None && currentIndex == old(currentIndex) && previousStack == []
      ensures old(previousStack) != [] ==>
        && previousStack == old(previousStack)[..|old(previousStack)| - 1]
        && currentIndex == old(previousStack)[|old(previousStack)| - 1]
        && r == Some(tracks[currentIndex])
    {
      if previousStack == [] {
        return None;
      }
      currentIndex := previousStack[|previousStack| - 1];
      previousStack := previousStack[..|previousStack| - 1];
      r := GetCurrent();
    }

    /** Flips track looping, sets playlist looping to the opposite and names the mode. */
    method ToggleLoopCurrent() returns (mode: string)
      requires Valid()
      modifies this`loopCurrent, this`loopPlaylist
      ensures Valid() && LoopModesExclusive()
      ensures loopCurrent == !old(loopCurrent) && loopPlaylist == !loopCurrent
      ensures mode == "current track" <==> loopCurrent
      ensures mode == LoopModeName(loopCurrent)
    {
      loopCurrent := !loopCurrent;
      loopPlaylist := !loopCurrent;
      mode := LoopModeName(loopCurrent);
    }

    /** The queue dict; shuffle mode means "the shown order differs from the saved one". */
    function GetQueue(): (q: QueueSnapshot)
      reads this
      ensures q.shuffleMode <==> tracks != originalOrder
      ensures !q.shuffleMode ==> q.tracks == originalOrder
      ensures Valid() ==> multiset(q.tracks) == multiset(originalOrder)
      ensures Valid() ==> (if q.tracks == [] then q.currentIndex == 0 else q.currentIndex < |q.tracks|)
      ensures Valid() ==> forall k :: 0 <= k < |q.previousStack| ==> q.previousStack[k] < |q.tracks|
    {
      QueueSnapshot(playlistName, tracks, currentIndex, previousStack, loopCurrent, tracks != originalOrder)
    }
  }
}
