/** The current playlist queue (bot/queue_manager.py): an ordered track list, the
    position in it, a history stack of visited positions, the two loop flags and
    the pre-shuffle order. `random.shuffle` is modelled as "any permutation". */
module QueueManager {
  import opened Values
  import opened QueueSpec

  // ---------------------------------------------------------------------------
  // The queue object
  // ---------------------------------------------------------------------------

  class QueueManager {
    var playlistName: string
    var tracks: seq<Track>
    var currentIndex: nat
    var previousStack: seq<nat>
    var loopCurrent: bool
    var loopPlaylist: bool
    var originalOrder: seq<Track>

    /** The queue's invariant: the shown order is a permutation of the original one,
        and the index and every remembered index point into it. */
    ghost predicate Valid()
      reads this
    {
      && multiset(tracks) == multiset(originalOrder)
      && (if tracks == [] then currentIndex == 0 else currentIndex < |tracks|)
      && (forall k :: 0 <= k < |previousStack| ==> previousStack[k] < |tracks|)
    }

    /** Exactly one loop mode is on: the constructor starts so and only
        `ToggleLoopCurrent` writes the flags, keeping them opposite. */
    ghost predicate LoopModesExclusive()
      reads this
    {
      loopPlaylist == !loopCurrent
    }

    constructor ()
      ensures Valid() && LoopModesExclusive()
      ensures playlistName == "None" && tracks == [] && originalOrder == []
      ensures currentIndex == 0 && previousStack == []
      ensures !loopCurrent && loopPlaylist
    {
      playlistName := "None";
      tracks := [];
      currentIndex := 0;
      previousStack := [];
      loopCurrent := false;
      loopPlaylist := true;
      originalOrder := [];
    }

    /** Replaces the queue: both orders become the given list, the history is
        cleared and the index reset; then the queue is shuffled if asked. */
    method SetTracks(trackList: seq<Track>, name: string, shuffle: bool)
      requires Valid()
      modifies this
      ensures Valid()
      ensures playlistName == name && originalOrder == trackList
      ensures previousStack == [] && currentIndex == 0
      ensures loopCurrent == old(loopCurrent) && loopPlaylist == old(loopPlaylist)
      ensures !shuffle ==> tracks == trackList
      ensures shuffle ==> ShuffledAround(trackList, 0, tracks)
      ensures !shuffle ==> !Export().shuffleMode
    {
      playlistName := name;
      tracks := trackList;
      originalOrder := trackList;
      previousStack := [];
      currentIndex := 0;
      if |tracks| == 0 {
        currentIndex := 0;
      } else {
        currentIndex := if currentIndex < |tracks| - 1 then currentIndex else |tracks| - 1;
      }
      if shuffle {
        Shuffle();
      }
    }

    /** The current track, or None for an empty queue; an index past the end is
        first pulled back onto the last track. */
    method GetCurrent() returns (r: Option<Track>)
      modifies this`currentIndex
      ensures tracks == [] ==> r == None && currentIndex == old(currentIndex)
      ensures tracks != [] ==> currentIndex == (if old(currentIndex) < |tracks| then old(currentIndex) else |tracks| - 1)
      ensures tracks != [] ==> r == Some(tracks[currentIndex])
    {
      if tracks == [] {
        return None;
      }
      if currentIndex >= |tracks| {
        currentIndex := |tracks| - 1;
      }
      return Some(tracks[currentIndex]);
    }

    /** Shuffles every track but the current one, which goes first; the index is
        left where it was. */
    method Shuffle()
      requires Valid()
      modifies this`tracks
      ensures Valid()
      ensures ShuffledAround(old(tracks), currentIndex, tracks)
      ensures old(tracks) == originalOrder && 0 < currentIndex && DistinctUrls(originalOrder) ==> Export().shuffleMode
    {
      if |tracks| <= 1 {
        return;
      }
      var current := tracks[currentIndex];
      var remaining := Without(tracks, currentIndex);
      var shuffled :| multiset(shuffled) == multiset(remaining);
      tracks := [current] + shuffled;
      assert tracks[1..] == shuffled;
      ShufflePermutes(old(tracks), currentIndex, tracks);
      if old(tracks) == originalOrder && 0 < currentIndex && DistinctUrls(originalOrder) {
        ShuffleChangesOrder(old(tracks), currentIndex, tracks);
      }
    }

    /** Restores the original order and moves the index to the first track whose
        URL is the current track's; nothing happens when there is no saved order. */
    method Unshuffle()
      requires Valid()
      modifies this`tracks, this`currentIndex
      ensures Valid()
      ensures old(originalOrder) == [] ==> tracks == old(tracks) && currentIndex == old(currentIndex)
      ensures old(originalOrder) != [] ==>
        && tracks == originalOrder
        && Some(currentIndex) == FirstUrlIndex(originalOrder, old(tracks[currentIndex]).url)
      ensures old(originalOrder) != [] ==> !Export().shuffleMode
    {
      if originalOrder == [] {
        return;
      }
      var current := GetCurrent();
      var url := current.value.url;
      UnshuffleFinds(tracks, originalOrder, currentIndex);
      tracks := originalOrder;
      var i := 0;
      while i < |tracks|
        invariant 0 <= i <= |tracks|
        invariant forall j :: 0 <= j < i ==> tracks[j].url != url
        invariant currentIndex == old(currentIndex)
      {
        if tracks[i].url == url {
          currentIndex := i;
          break;
        }
        i := i + 1;
      }
    }

    /** `is_shuffled`: the shown order differs from the saved one. */
    predicate IsShuffled()
      reads this
    {
      tracks != originalOrder
    }

    /** Flips track looping, sets playlist looping to the opposite and names the mode. */
    method ToggleLoopCurrent() returns (mode: string)
      requires Valid()
      modifies this`loopCurrent, this`loopPlaylist
      ensures Valid() && LoopModesExclusive()
      ensures loopCurrent == !old(loopCurrent) && loopPlaylist == !loopCurrent
      ensures mode == "current track" <==> loopCurrent
      ensures mode == LoopModeName(loopCurrent)
    {
      loopCurrent := !loopCurrent;
      loopPlaylist := !loopCurrent;
      mode := LoopModeName(loopCurrent);
    }

    /** Advances and returns the new current track. A looping track is returned again
        with nothing changed; otherwise the old index is pushed on the history. */
    method NextTrack() returns (r: Option<Track>)
      requires Valid()
      modifies this`currentIndex, this`previousStack
      ensures Valid()
      ensures tracks == [] ==> r == None && currentIndex == old(currentIndex) && previousStack == old(previousStack)
      ensures tracks != [] && loopCurrent ==>
        r == Some(tracks[currentIndex]) && currentIndex == old(currentIndex) && previousStack == old(previousStack)
      ensures tracks != [] && !loopCurrent ==>
        && previousStack == old(previousStack) + [old(currentIndex)]
        && currentIndex == NextIndex(old(currentIndex), |tracks|, loopPlaylist)
        && r == Some(tracks[currentIndex])
      ensures LoopModesExclusive() && tracks != [] && !loopCurrent ==>
        currentIndex == (old(currentIndex) + 1) % |tracks|
    {
      if tracks == [] {
        return None;
      }
      if loopCurrent {
        r := GetCurrent();
        return;
      }
      previousStack := previousStack + [currentIndex];
      currentIndex := currentIndex + 1;
      if currentIndex >= |tracks| {
        if loopPlaylist {
          currentIndex := 0;
        } else {
          currentIndex := |tracks| - 1;
        }
      }
      r := GetCurrent();
    }

    /** Goes back to the last remembered position; with no history nothing changes. */
    method PreviousTrack() returns (r: Option<Track>)
      requires Valid()
      modifies this`currentIndex, this`previousStack
      ensures Valid()
      ensures old(previousStack) == [] ==> r == None && currentIndex == old(currentIndex) && previousStack == []
      ensures old(previousStack) != [] ==>
        && previousStack == old(previousStack)[..|old(previousStack)| - 1]
        && currentIndex == old(previousStack)[|old(previousStack)| - 1]
        && r == Some(tracks[currentIndex])
    {
      if previousStack == [] {
        return None;
      }
      currentIndex := previousStack[|previousStack| - 1];
      previousStack := previousStack[..|previousStack| - 1];
      r := GetCurrent();
    }

    predicate IsEmpty()
      reads this
    {
      tracks == []
    }

    /** The snapshot `export` returns; shuffle mode is "differs from the saved order". */
    function Export(): (e: QueueSnapshot)
      reads this
      ensures e.shuffleMode <==> IsShuffled()
      ensures !e.shuffleMode ==> e.tracks == originalOrder
      ensures Valid() ==> multiset(e.tracks) == multiset(originalOrder)
      ensures Valid() ==> (if e.tracks == [] then e.currentIndex == 0 else e.currentIndex < |e.tracks|)
      ensures Valid() ==> forall k :: 0 <= k < |e.previousStack| ==> e.previousStack[k] < |e.tracks|
    {
      QueueSnapshot(playlistName, tracks, currentIndex, previousStack, loopCurrent, tracks != originalOrder)
    }
  }

  /** Toggling the loop mode twice gives back both flags and reports both modes. */
  method ToggleLoopTwice(q: QueueManager) returns (first: string, second: string)
    requires q.Valid()
    modifies q
    ensures q.Valid() && q.LoopModesExclusive()
    ensures q.loopCurrent == old(q.loopCurrent) && q.loopPlaylist == !old(q.loopCurrent)
    ensures first != second
  {
    first := q.ToggleLoopCurrent();
    second := q.ToggleLoopCurrent();
  }

  /** Load [A, B, C] unshuffled, then next, next, previous, previous, previous. */
  method HistoryScenario(a: Track, b: Track, c: Track)
  {
    var q := new QueueManager();
    q.SetTracks([a, b, c], "demo", false);
    var t := q.NextTrack();
    assert t == Some(b) && q.previousStack == [0];
    t := q.NextTrack();
    assert t == Some(c) && q.previousStack == [0, 1];
    t := q.PreviousTrack();
    assert t == Some(b) && q.previousStack == [0];
    t := q.PreviousTrack();
    assert t == Some(a) && q.previousStack == [];
    t := q.PreviousTrack();
    assert t == None && q.currentIndex == 0;
  }
}
