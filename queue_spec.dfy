/** The queue semantics shared by both queue classes (bot/queue_manager.py and
    the older bot/queue.py): where "next" moves, what a shuffle may produce, how
    "unshuffle" finds the current track again, and the exported queue dict. */
module QueueSpec {
  import opened Values

  // ---------------------------------------------------------------------------
  // Specification functions
  // ---------------------------------------------------------------------------

  /** The tracks other than the one at `i`, in their order. */
  function Without(s: seq<Track>, i: nat): seq<Track>
    requires i < |s|
  {
    s[..i] + s[i + 1..]
  }

  /** `after` is a shuffle of `before` around position `i`: for two or more tracks the
      track at `i` comes first and the rest are the other tracks in some order; a
      list of at most one track is left alone. */
  ghost predicate ShuffledAround(before: seq<Track>, i: nat, after: seq<Track>)
  {
    if |before| <= 1 then after == before
    else
      && i < |before|
      && |after| == |before|
      && after[0] == before[i]
      && multiset(after[1..]) == multiset(Without(before, i))
  }

  /** Where the queue moves on "next" when the current track does not loop: one step
      on, and past the end back to the start (playlist loop) or onto the last track. */
  function NextIndex(i: nat, len: nat, loopPlaylist: bool): (r: nat)
    requires i < len
    ensures r < len
    ensures loopPlaylist ==> r == (i + 1) % len
    ensures !loopPlaylist ==> r == if i + 1 < len then i + 1 else len - 1
  {
    if i + 1 >= len then (if loopPlaylist then 0 else len - 1) else i + 1
  }

  /** The position after `k` "next" steps. */
  function NextIndexN(i: nat, len: nat, loopPlaylist: bool, k: nat): nat
    requires i < len
    ensures NextIndexN(i, len, loopPlaylist, k) < len
    decreases k
  {
    if k == 0 then i else NextIndexN(NextIndex(i, len, loopPlaylist), len, loopPlaylist, k - 1)
  }

  /** The first position whose track has the given URL (the search in `unshuffle`). */
  function FirstUrlIndex(s: seq<Track>, url: string): (r: Option<nat>)
    ensures r.Some? ==> r.value < |s| && s[r.value].url == url
    ensures r.Some? ==> forall j :: 0 <= j < r.value ==> s[j].url != url
    ensures r.None? ==> forall j :: 0 <= j < |s| ==> s[j].url != url
  {
    if s == [] then None
    else if s[0].url == url then Some(0)
    else match FirstUrlIndex(s[1..], url)
      case None => None
      case Some(j) => Some(j + 1)
  }

  /** The mode name `toggle_loop_current` reports. */
  function LoopModeName(loopCurrent: bool): string
  {
    if loopCurrent then "current track" else "playlist"
  }

  // ---------------------------------------------------------------------------
  // Lemmas about the specification
  // ---------------------------------------------------------------------------

  /** A shuffle around any position keeps exactly the same tracks. */
  lemma ShufflePermutes(before: seq<Track>, i: nat, after: seq<Track>)
    requires ShuffledAround(before, i, after)
    ensures multiset(after) == multiset(before) && |after| == |before|
  {
    if |before| > 1 {
      assert after == [after[0]] + after[1..];
      assert before == before[..i] + [before[i]] + before[i + 1..];
    }
  }

  /** The shuffle puts the current track first but does not move the index, so when
      the index is not 0 and the URLs are distinct the track at the index changes. */
  lemma ShuffleMovesCurrent(before: seq<Track>, i: nat, after: seq<Track>)
    requires ShuffledAround(before, i, after) && |before| > 1 && 0 < i < |before|
    requires forall a, b :: 0 <= a < b < |before| ==> before[a].url != before[b].url
    ensures after[i].url != before[i].url
  {
    var rest := Without(before, i);
    assert after[i] in multiset(after[1..]) by { assert after[1..][i - 1] == after[i]; }
    assert after[i] in rest;
    var k :| 0 <= k < |rest| && rest[k] == after[i];
    if k < i {
      assert rest[k] == before[k];
    } else {
      assert rest[k] == before[k + 1];
    }
  }

  /** No two tracks share a URL. */
  predicate DistinctUrls(s: seq<Track>)
  {
    forall a, b :: 0 <= a < b < |s| ==> s[a].url != s[b].url
  }

  /** So a shuffle around a position past the first, over tracks with distinct URLs,
      always changes the order: "shuffle mode" then shows as on. */
  lemma ShuffleChangesOrder(before: seq<Track>, i: nat, after: seq<Track>)
    requires ShuffledAround(before, i, after) && 0 < i < |before| && DistinctUrls(before)
    ensures after != before
  {
    ShuffleMovesCurrent(before, i, after);
  }

  /** Steps that stay before the end just count up, whatever the loop flag. */
  lemma {:induction false} NextIndexNBelow(i: nat, len: nat, loopPlaylist: bool, k: nat)
    requires i + k < len
    ensures NextIndexN(i, len, loopPlaylist, k) == i + k
    decreases k
  {
    if k > 0 {
      NextIndexNBelow(i + 1, len, loopPlaylist, k - 1);
    }
  }

  /** `a` steps followed by `b` steps are `a + b` steps. */
  lemma {:induction false} NextIndexNAdd(i: nat, len: nat, loopPlaylist: bool, a: nat, b: nat)
    requires i < len
    ensures NextIndexN(i, len, loopPlaylist, a + b)
         == NextIndexN(NextIndexN(i, len, loopPlaylist, a), len, loopPlaylist, b)
    decreases a
  {
    if a > 0 {
      NextIndexNAdd(NextIndex(i, len, loopPlaylist), len, loopPlaylist, a - 1, b);
    }
  }

  /** With playlist looping, `len` steps of "next" come back to where they started. */
  lemma {:induction false} NextIndexCycle(i: nat, len: nat)
    requires i < len
    ensures NextIndexN(i, len, true, len) == i
  {
    var toEnd := len - 1 - i;
    NextIndexNBelow(i, len, true, toEnd);
    NextIndexNAdd(i, len, true, toEnd, 1);
    assert NextIndexN(i, len, true, toEnd + 1) == 0 by {
      assert NextIndexN(len - 1, len, true, 1) == NextIndexN(0, len, true, 0);
    }
    NextIndexNAdd(i, len, true, toEnd + 1, i);
    NextIndexNBelow(0, len, true, i);
    assert toEnd + 1 + i == len;
  }

  /** Without looping, `k` steps of "next" go `k` places on and stop at the last track. */
  lemma {:induction false} NextIndexNClamp(i: nat, len: nat, k: nat)
    requires i < len
    ensures NextIndexN(i, len, false, k) == if i + k < len then i + k else len - 1
    decreases k
  {
    if k > 0 {
      NextIndexNClamp(NextIndex(i, len, false), len, k - 1);
    }
  }

  /** A track held in a permutation of the original order is found there by URL. */
  lemma UnshuffleFinds(tracks: seq<Track>, original: seq<Track>, i: nat)
    requires multiset(tracks) == multiset(original) && i < |tracks|
    ensures FirstUrlIndex(original, tracks[i].url).Some?
  {
    assert tracks[i] in multiset(original);
    var k :| 0 <= k < |original| && original[k] == tracks[i];
  }

  /** The queue dict that `export` (and `get_queue` in the older queue) reports. */
  datatype QueueSnapshot = QueueSnapshot(
    playlistName: string,
    tracks: seq<Track>,
    currentIndex: nat,
    previousStack: seq<nat>,
    loopCurrent: bool,
    shuffleMode: bool)

}
