/** The queue embed (utils/queue_renderer.py): a "Now Playing" box of fixed inner
    width, up to three recently played tracks, one page of upcoming tracks with a
    "+N more" note, and a footer with the loop and shuffle flags. Track names are
    Markdown-escaped. The embed is plain data here; the caller passes the snapshot
    the player queue's `get_queue` returns. */
module QueueRenderer {
  import opened Values
  import opened QueueSpec

  const Green: int := 0x4CAF50
  /** Inner width of the "Now Playing" box, borders excluded. */
  const BoxWidth: nat := 46

  datatype Field = Field(name: string, value: string, inline: bool)
  datatype Embed = Embed(title: string, color: int, fields: seq<Field>, footer: string)

  // ---------------------------------------------------------------------------
  // Markdown escaping
  // ---------------------------------------------------------------------------

  /** `s.replace(c, r)` for a one-character pattern. */
  function ReplaceChar(s: string, c: char, r: string): string
  {
    if s == [] then [] else (if s[0] == c then r else [s[0]]) + ReplaceChar(s[1..], c, r)
  }

  lemma {:induction false} ReplaceAppend(a: string, b: string, c: char, r: string)
    ensures ReplaceChar(a + b, c, r) == ReplaceChar(a, c, r) + ReplaceChar(b, c, r)
  {
    if a == [] {
      assert a + b == b;
    } else {
      assert (a + b)[1..] == a[1..] + b;
      ReplaceAppend(a[1..], b, c, r);
    }
  }

  /** The replacements `_md_escape` makes, in order: each special character becomes
      a backslash followed by itself, backslash first. */
  const EscapePatterns: seq<(char, string)> :=
    [('\\', "\\\\"), ('`', "\\`"), ('*', "\\*"), ('_', "\\_"), ('|', "\\|"),
     ('[', "\\["), (']', "\\]"), ('(', "\\("), (')', "\\)")]

  /** `s.replace(p0, r0).replace(p1, r1)...` */
  function ReplaceAll(s: string, ps: seq<(char, string)>): string
    decreases |ps|
  {
    if ps == [] then s else ReplaceAll(ReplaceChar(s, ps[0].0, ps[0].1), ps[1..])
  }

  /** `_md_escape`: nine replacements in a row, backslash first. */
  function MdEscape(s: string): string
  {
    var s1 := ReplaceChar(s, '\\', "\\\\");
    var s2 := ReplaceChar(s1, '`', "\\`");
    var s3 := ReplaceChar(s2, '*', "\\*");
    var s4 := ReplaceChar(s3, '_', "\\_");
    var s5 := ReplaceChar(s4, '|', "\\|");
    var s6 := ReplaceChar(s5, '[', "\\[");
    var s7 := ReplaceChar(s6, ']', "\\]");
    var s8 := ReplaceChar(s7, '(', "\\(");
    ReplaceChar(s8, ')', "\\)")
  }

  /** The chain is the pattern list applied in order. */
  lemma MdEscapeIsReplaceAll(s: string)
    ensures MdEscape(s) == ReplaceAll(s, EscapePatterns)
  {
  }

  predicate IsMarkdownSpecial(c: char)
  {
    exists j :: 0 <= j < |EscapePatterns| && EscapePatterns[j].0 == c
  }

  /** The reference escaper: each special character gets one backslash in front. */
  function EscapeEach(s: string): string
  {
    if s == [] then []
    else (if IsMarkdownSpecial(s[0]) then ['\\', s[0]] else [s[0]]) + EscapeEach(s[1..])
  }

  /** Reading an escaped text back: a backslash takes the next character literally. */
  function Unescape(t: string): string
    decreases |t|
  {
    if t == [] then []
    else if t[0] == '\\' && |t| >= 2 then [t[1]] + Unescape(t[2..])
    else [t[0]] + Unescape(t[1..])
  }

  lemma {:induction false} ReplaceAllAppend(a: string, b: string, ps: seq<(char, string)>)
    ensures ReplaceAll(a + b, ps) == ReplaceAll(a, ps) + ReplaceAll(b, ps)
    decreases |ps|
  {
    if ps != [] {
      ReplaceAppend(a, b, ps[0].0, ps[0].1);
      ReplaceAllAppend(ReplaceChar(a, ps[0].0, ps[0].1), ReplaceChar(b, ps[0].0, ps[0].1), ps[1..]);
    }
  }

  lemma {:induction false} ReplaceAbsent(s: string, c: char, r: string)
    requires forall k :: 0 <= k < |s| ==> s[k] != c
    ensures ReplaceChar(s, c, r) == s
  {
    if s != [] {
      ReplaceAbsent(s[1..], c, r);
    }
  }

  lemma {:induction false} ReplaceAllAbsent(s: string, ps: seq<(char, string)>)
    requires forall k, j :: 0 <= k < |s| && 0 <= j < |ps| ==> s[k] != ps[j].0
    ensures ReplaceAll(s, ps) == s
    decreases |ps|
  {
    if ps != [] {
      ReplaceAbsent(s, ps[0].0, ps[0].1);
      ReplaceAllAbsent(s, ps[1..]);
    }
  }

  lemma {:induction false} ReplaceAllSplit(s: string, ps: seq<(char, string)>, j: nat)
    requires j <= |ps|
    ensures ReplaceAll(s, ps) == ReplaceAll(ReplaceAll(s, ps[..j]), ps[j..])
    decreases j
  {
    if j > 0 {
      assert ps[..j][0] == ps[0] && ps[..j][1..] == ps[1..][..j - 1];
      ReplaceAllSplit(ReplaceChar(s, ps[0].0, ps[0].1), ps[1..], j - 1);
      assert ps[1..][j - 1..] == ps[j..];
    } else {
      assert ps[..0] == [] && ps[0..] == ps;
    }
  }

  lemma EscapePatternsShape()
    ensures forall i, j :: 0 <= i < j < |EscapePatterns| ==> EscapePatterns[i].0 != EscapePatterns[j].0
    ensures forall j :: 0 <= j < |EscapePatterns| ==> EscapePatterns[j].1 == ['\\', EscapePatterns[j].0]
    ensures EscapePatterns[0].0 == '\\'
  {
  }

  /** A special character is escaped once: the replacements before its own leave it
      alone, and those after touch neither it nor the backslash, handled first. */
  lemma ReplaceAllSpecial(c: char, j: nat)
    requires j < |EscapePatterns| && EscapePatterns[j].0 == c
    ensures ReplaceAll([c], EscapePatterns) == ['\\', c]
  {
    var ps := EscapePatterns;
    ReplaceAllSplit([c], ps, j);
    SpecialBefore(c, j);
    assert ps[j..][0] == ps[j] && ps[j..][1..] == ps[j + 1..];
    assert ps[j].1 == ['\\', c] by { EscapePatternsShape(); }
    assert ReplaceChar([c], c, ps[j].1) == ['\\', c];
    SpecialAfter(c, j);
  }

  /** The replacements before a special character's own leave it alone. */
  lemma SpecialBefore(c: char, j: nat)
    requires j < |EscapePatterns| && EscapePatterns[j].0 == c
    ensures ReplaceAll([c], EscapePatterns[..j]) == [c]
  {
    EscapePatternsShape();
    ReplaceAllAbsent([c], EscapePatterns[..j]);
  }

  /** The replacements after a special character's own touch neither it nor the
      backslash in front of it. */
  lemma SpecialAfter(c: char, j: nat)
    requires j < |EscapePatterns| && EscapePatterns[j].0 == c
    ensures ReplaceAll(['\\', c], EscapePatterns[j + 1..]) == ['\\', c]
  {
    EscapePatternsShape();
    ReplaceAllAbsent(['\\', c], EscapePatterns[j + 1..]);
  }

  /** On one character the replacements escape exactly the specials. */
  lemma ReplaceAllChar(c: char)
    ensures ReplaceAll([c], EscapePatterns) == if IsMarkdownSpecial(c) then ['\\', c] else [c]
  {
    if j :| 0 <= j < |EscapePatterns| && EscapePatterns[j].0 == c {
      ReplaceAllSpecial(c, j);
    } else {
      ReplaceAllAbsent([c], EscapePatterns);
    }
  }

  /** The chain of replacements is the per-character escaper. */
  lemma {:induction false} MdEscapeIsEscapeEach(s: string)
    ensures MdEscape(s) == EscapeEach(s)
  {
    if s != [] {
      assert s == [s[0]] + s[1..];
      ReplaceAllAppend([s[0]], s[1..], EscapePatterns);
      MdEscapeIsReplaceAll(s);
      MdEscapeIsReplaceAll([s[0]]);
      MdEscapeIsReplaceAll(s[1..]);
      ReplaceAllChar(s[0]);
      MdEscapeIsEscapeEach(s[1..]);
    } else {
      assert MdEscape(s) == [];
    }
  }

  /** Escaping loses nothing: the escaped title reads back as the original name. */
  lemma {:induction false} UnescapeMdEscape(s: string)
    ensures Unescape(MdEscape(s)) == s
  {
    MdEscapeIsEscapeEach(s);
    EscapeEachRoundTrip(s);
  }

  lemma {:induction false} EscapeEachRoundTrip(s: string)
    ensures Unescape(EscapeEach(s)) == s
  {
    if s != [] {
      var rest := EscapeEach(s[1..]);
      EscapeEachRoundTrip(s[1..]);
      if IsMarkdownSpecial(s[0]) {
        assert EscapeEach(s)[2..] == rest;
      } else {
        EscapePatternsShape();
        assert s[0] != '\\';
        assert EscapeEach(s)[1..] == rest;
      }
    }
  }

  // ---------------------------------------------------------------------------
  // Text layout
  // ---------------------------------------------------------------------------

  function Repeat(c: char, n: nat): (s: string)
    ensures |s| == n && forall k :: 0 <= k < n ==> s[k] == c
  {
    seq(n, _ => c)
  }

  /** How many of the margin's spaces `str.center` puts on the left: half, plus the
      odd one when both the margin and the width are odd. The two sides differ by at
      most one space, and in an even width any odd space goes right. */
  function CenterLeft(len: nat, width: nat): (left: nat)
    requires len < width
    ensures left <= width - len
    ensures width - len - left - left <= 1 && left - (width - len - left) <= 1
    ensures width % 2 == 0 ==> left == (width - len) / 2
  {
    var marg := width - len;
    marg / 2 + (if marg % 2 == 1 && width % 2 == 1 then 1 else 0)
  }

  /** `s.center(width)` as CPython computes it. */
  function Center(s: string, width: nat): (r: string)
    ensures |s| >= width ==> r == s
    ensures |s| < width ==> |r| == width && r[CenterLeft(|s|, width)..CenterLeft(|s|, width) + |s|] == s
    ensures |s| < width ==> forall k :: 0 <= k < CenterLeft(|s|, width) ==> r[k] == ' '
    ensures |s| < width ==> forall k :: CenterLeft(|s|, width) + |s| <= k < width ==> r[k] == ' '
  {
    if |s| >= width then s
    else
      var left := CenterLeft(|s|, width);
      var r := Repeat(' ', left) + s + Repeat(' ', width - |s| - left);
      assert r[left..left + |s|] == s;
      r
  }

  /** `f"{s:>width}"`. */
  function RightAlign(s: string, width: nat): (r: string)
    ensures |r| == if |s| >= width then |s| else width
  {
    if |s| >= width then s else Repeat(' ', width - |s|) + s
  }

  /** `sep.join(lines)`. */
  function Join(lines: seq<string>, sep: string): string
  {
    if lines == [] then "" else if |lines| == 1 then lines[0] else lines[0] + sep + Join(lines[1..], sep)
  }

  function Boxed(s: string): string
  {
    "\U{2503}" + s + "\U{2503}"
  }

  function TopRule(): string
  {
    "\U{250F}" + Repeat('\U{2501}', BoxWidth) + "\U{2513}"
  }

  function BottomRule(): string
  {
    "\U{2517}" + Repeat('\U{2501}', BoxWidth) + "\U{251B}"
  }

  function IndexLabel(cur: nat, total: nat): string
  {
    "(index " + NatToString(cur + 1) + "/" + NatToString(total) + ")"
  }

  /** The lines of the "Now Playing" box: the clipped title and the position, or the
      idle message. */
  function NowLines(title: Option<string>, cur: nat, total: nat): seq<string>
  {
    match title
    case Some(t) =>
      var clipped := if |t| <= BoxWidth then t else t[..BoxWidth];
      [TopRule(), Boxed(Center(clipped, BoxWidth)), Boxed(Center(IndexLabel(cur, total), BoxWidth)), BottomRule()]
    case None =>
      [TopRule(), Boxed(Center("(No song playing)", BoxWidth)), BottomRule()]
  }

  /** The box as one text, its lines joined by newlines. */
  function NowBlock(title: Option<string>, cur: nat, total: nat): string
  {
    Join(NowLines(title, cur, total), "\n")
  }

  /** Every line of the box is the same width, whatever the title's length, as long
      as the position label fits. */
  lemma NowLinesAligned(title: Option<string>, cur: nat, total: nat)
    requires |IndexLabel(cur, total)| <= BoxWidth
    ensures forall k :: 0 <= k < |NowLines(title, cur, total)| ==> |NowLines(title, cur, total)[k]| == BoxWidth + 2
  {
  }

  /** A listing line: the one-based position right-aligned in three columns, two
      spaces, the escaped title. */
  function Line(i: int, title: string): string
  {
    RightAlign(IntToString(i + 1) + ".", 3) + "  " + title
  }

  /** `_md_escape(name)`, which raises unless the name is a string. */
  function Escaped(name: Value): (r: Result<string>)
    ensures r.Ok? <==> name.VStr?
  {
    if name.VStr? then Ok(MdEscape(name.s)) else Err(NoAttribute(name, "replace"))
  }

  /** The lines for positions `lo` up to `hi` (exclusive), with Python indexing;
      the first failing position decides the error. */
  function Listing(tracks: seq<Track>, lo: int, hi: int): Result<seq<string>>
    decreases hi - lo
  {
    if hi <= lo then Ok([])
    else
      var prefix := Listing(tracks, lo, hi - 1);
      if prefix.Err? then prefix
      else
        var item := PyIndex(tracks, hi - 1);
        if item.Err? then Err(item.error)
        else
          var title := Escaped(item.value.name);
          if title.Err? then Err(title.error)
          else Ok(prefix.value + [Line(hi - 1, title.value)])
  }

  /** Once a position fails, the whole listing fails with its error. */
  lemma {:induction false} ListingFailsFrom(tracks: seq<Track>, lo: int, i: int, hi: int)
    requires lo <= i < hi
    requires Listing(tracks, lo, i + 1).Err?
    ensures Listing(tracks, lo, hi) == Listing(tracks, lo, i + 1)
    decreases hi - i
  {
    if hi > i + 1 {
      ListingFailsFrom(tracks, lo, i, hi - 1);
    }
  }

  /** With string names and in-range positions, the listing is one line per track,
      in order. */
  lemma {:induction false} ListingOfNames(tracks: seq<Track>, lo: nat, hi: nat)
    requires lo <= hi <= |tracks|
    requires forall k :: 0 <= k < |tracks| ==> tracks[k].name.VStr?
    ensures Listing(tracks, lo, hi).Ok?
    ensures |Listing(tracks, lo, hi).value| == hi - lo
    ensures forall k :: 0 <= k < hi - lo ==>
      Listing(tracks, lo, hi).value[k] == Line(lo + k, MdEscape(tracks[lo + k].name.s))
    decreases hi - lo
  {
    if hi > lo {
      ListingOfNames(tracks, lo, hi - 1);
      var prefix := Listing(tracks, lo, hi - 1).value;
      var line := Line(hi - 1, MdEscape(tracks[hi - 1].name.s));
      assert Listing(tracks, lo, hi).value == prefix + [line];
      assert forall k :: 0 <= k < hi - 1 - lo ==> (prefix + [line])[k] == prefix[k];
    }
  }

  // ---------------------------------------------------------------------------
  // Windows
  // ---------------------------------------------------------------------------

  /** The position shown as current: 0 for an empty queue, the last track when the
      index is past the end. */
  function ClampCurrent(index: int, total: nat): (cur: nat)
    ensures total == 0 ==> cur == 0
    ensures total > 0 ==> cur < total
    ensures 0 <= index < total ==> cur == index
  {
    var c := if index < 0 then 0 else index;
    if total == 0 then 0 else if c >= total then total - 1 else c
  }

  function Max(a: int, b: int): int { if a >= b then a else b }
  function Min(a: int, b: int): int { if a <= b then a else b }

  /** Where the recently played window starts: it holds the (up to) three
      positions right before the current one, and none at position 0. */
  function RecentStart(cur: int): (start: int)
    ensures 0 <= start
    ensures cur >= 0 ==> start <= cur && cur - start == Min(cur, 3)
  {
    Max(0, cur - 3)
  }

  function PageStart(cur: int, page: int, perPage: int): int
  {
    cur + 1 + (page - 1) * perPage
  }

  function PageEnd(cur: int, total: nat, page: int, perPage: int): int
  {
    Min(total, PageStart(cur, page, perPage) + perPage)
  }

  function Remaining(cur: int, total: nat, page: int, perPage: int): int
  {
    Max(0, (total - (cur + 1)) - page * perPage)
  }

  /** The tracks a page shows and the "+N more" count after it always add up to the
      whole queue. */
  lemma PageEndPlusRemaining(cur: int, total: nat, page: int, perPage: int)
    ensures PageEnd(cur, total, page, perPage) + Remaining(cur, total, page, perPage) == total
  {
    assert PageStart(cur, page, perPage) + perPage == cur + 1 + page * perPage by {
      assert (page - 1) * perPage + perPage == page * perPage;
    }
  }

  /** Consecutive pages continue where the last stopped, and no page is longer than
      the page size. */
  lemma PagesAdjoin(cur: int, total: nat, page: int, perPage: int)
    requires perPage >= 0
    ensures PageEnd(cur, total, page, perPage) - PageStart(cur, page, perPage) <= perPage
    ensures PageStart(cur, page + 1, perPage) <= total ==>
      PageEnd(cur, total, page, perPage) == PageStart(cur, page + 1, perPage)
  {
    assert PageStart(cur, page + 1, perPage) == PageStart(cur, page, perPage) + perPage by {
      assert page * perPage == (page - 1) * perPage + perPage;
    }
  }

  // ---------------------------------------------------------------------------
  // The embed
  // ---------------------------------------------------------------------------

  function NowField(nowBlock: string): Field
  {
    Field("   Now Playing", "```" + nowBlock + "```", false)
  }

  function RecentFields(recent: seq<string>): seq<Field>
  {
    if recent != [] then [Field("   Recently Played", "```" + Join(recent, "\n") + "```", false)] else []
  }

  function UpNextFields(upNext: seq<string>, page: int, remaining: int, total: nat): seq<Field>
  {
    if upNext != [] then
      var more := if remaining > 0 then "\n\U{2026} +" + IntToString(remaining) + " more" else "";
      [Field("   Up Next \U{2014} Page " + IntToString(page), "```" + Join(upNext, "\n") + "```" + more, false)]
    else if total == 0 then [Field("   Up Next", "(queue is empty)", false)]
    else []
  }

  /** A page's panel starts with its listing and carries the "+N more" line after it
      exactly when tracks remain beyond the page. */
  lemma UpNextMore(upNext: seq<string>, page: int, remaining: int, total: nat)
    requires upNext != []
    ensures var body := "```" + Join(upNext, "\n") + "```";
      var v := UpNextFields(upNext, page, remaining, total)[0].value;
      |v| >= |body| && v[..|body|] == body && (v == body <==> remaining <= 0)
  {
    var body := "```" + Join(upNext, "\n") + "```";
    var v := UpNextFields(upNext, page, remaining, total)[0].value;
    if remaining > 0 {
      assert |v| > |body|;
    }
  }

  function OnOff(b: bool): string
  {
    if b then "On" else "Off"
  }

  function Footer(loopCurrent: bool, shuffleMode: bool, total: nat): string
  {
    " Loop: " + OnOff(loopCurrent) + "  \U{2022}    Shuffle: " + OnOff(shuffleMode)
    + "  \U{2022}    Tracks: " + NatToString(total)
  }

  /** The footer's loop word is "On" exactly when the current track loops, and two
      footers agree only when both flags and the track count do. */
  lemma FooterFlags(l1: bool, s1: bool, t1: nat, l2: bool, s2: bool, t2: nat)
    ensures Footer(l1, s1, t1)[7..9] == "On" <==> l1
    ensures Footer(l1, s1, t1) == Footer(l2, s2, t2) ==> l1 == l2 && s1 == s2 && t1 == t2
  {
    var f1, f2 := Footer(l1, s1, t1), Footer(l2, s2, t2);
    assert f1[7..9] == OnOff(l1)[..2];
    assert f1[8] == OnOff(l1)[1];
    if f1 == f2 {
      assert f1[8] == OnOff(l1)[1] && f2[8] == OnOff(l2)[1];
      var p := 7 + |OnOff(l1)| + 16;
      assert f1[p + 1] == OnOff(s1)[1] && f2[p + 1] == OnOff(s2)[1];
      var q := p + |OnOff(s1)| + 15;
      assert f1[q..] == NatToString(t1) && f2[q..] == NatToString(t2);
      NatToStringRoundTrip(t1);
      NatToStringRoundTrip(t2);
    }
  }

  function DisplayName(playlistName: string): string
  {
    if playlistName != "" then playlistName else "None"
  }

  /** The embed's panels, in the order `render_queue_embed` adds them. */
  function Panels(nowBlock: string, recent: seq<string>, upNext: seq<string>, page: int, remaining: int, total: nat): seq<Field>
  {
    [NowField(nowBlock)] + RecentFields(recent) + UpNextFields(upNext, page, remaining, total)
  }

  function FieldNames(fields: seq<Field>): seq<string>
  {
    seq(|fields|, k requires 0 <= k < |fields| => fields[k].name)
  }

  lemma PanelNames(nowBlock: string, recent: seq<string>, upNext: seq<string>, page: int, remaining: int, total: nat)
    ensures FieldNames(Panels(nowBlock, recent, upNext, page, remaining, total)) ==
      ["   Now Playing"]
      + (if recent != [] then ["   Recently Played"] else [])
      + (if upNext != [] then ["   Up Next \U{2014} Page " + IntToString(page)]
         else if total == 0 then ["   Up Next"] else [])
  {
  }

  /** `render_queue_embed(page, per_page)` on a queue snapshot. */
  function Render(queue: QueueSnapshot, page: int, perPage: int): Result<Embed>
  {
    var tracks := queue.tracks;
    var total := |tracks|;
    var cur := ClampCurrent(queue.currentIndex, total);
    var now := if total > 0 then Escaped(tracks[cur].name) else Ok("");
    if now.Err? then Err(now.error)
    else
      var recent := RecentListing(tracks, cur);
      if recent.Err? then Err(recent.error)
      else
        var upNext := UpNextListing(tracks, cur, page, perPage);
        if upNext.Err? then Err(upNext.error)
        else
          var nowBlock := NowBlock(if total > 0 then Some(now.value) else None, cur, total);
          Ok(Assemble(queue, page, perPage, cur, nowBlock, recent.value, upNext.value))
  }

  /** The embed around its panels: title, colour and footer. */
  function Assemble(queue: QueueSnapshot, page: int, perPage: int, cur: nat, nowBlock: string,
                    recent: seq<string>, upNext: seq<string>): Embed
  {
    var total := |queue.tracks|;
    Embed("Current Playlist: " + DisplayName(queue.playlistName), Green,
          Panels(nowBlock, recent, upNext, page, Remaining(cur, total, page, perPage), total),
          Footer(queue.loopCurrent, queue.shuffleMode, total))
  }

  /** The recently played lines: only when there is a current track after the first. */
  function RecentListing(tracks: seq<Track>, cur: nat): Result<seq<string>>
  {
    if |tracks| > 0 && cur > 0 then Listing(tracks, RecentStart(cur), cur) else Ok([])
  }

  /** The up-next lines: only when the page starts before the end of the queue. */
  function UpNextListing(tracks: seq<Track>, cur: nat, page: int, perPage: int): Result<seq<string>>
  {
    var start := PageStart(cur, page, perPage);
    if |tracks| > 0 && start < |tracks| then Listing(tracks, start, PageEnd(cur, |tracks|, page, perPage)) else Ok([])
  }

  /** With string names and a page number of at least one, rendering succeeds; the
      recent panel appears exactly when the current track is not the first, the
      paged panel exactly when the page starts inside the queue, and the empty
      notice exactly when the queue is empty. */
  lemma RenderPanels(queue: QueueSnapshot, page: int, perPage: int)
    requires forall k :: 0 <= k < |queue.tracks| ==> queue.tracks[k].name.VStr?
    requires page >= 1 && perPage >= 1
    ensures var total := |queue.tracks|;
      var cur := ClampCurrent(queue.currentIndex, total);
      var r := Render(queue, page, perPage);
      && r.Ok?
      && r.value.title == "Current Playlist: " + DisplayName(queue.playlistName)
      && FieldNames(r.value.fields) ==
         ["   Now Playing"]
         + (if cur > 0 then ["   Recently Played"] else [])
         + (if PageStart(cur, page, perPage) < total then ["   Up Next \U{2014} Page " + IntToString(page)]
            else if total == 0 then ["   Up Next"] else [])
  {
    var tracks := queue.tracks;
    var total := |tracks|;
    var cur := ClampCurrent(queue.currentIndex, total);
    var start := PageStart(cur, page, perPage);
    assert start >= cur + 1 by {
      assert (page - 1) * perPage >= 0;
    }
    if total > 0 {
      ListingOfNames(tracks, RecentStart(cur), cur);
      if start < total {
        ListingOfNames(tracks, start, PageEnd(cur, total, page, perPage));
      }
    }
    var recent := RecentListing(tracks, cur);
    var upNext := UpNextListing(tracks, cur, page, perPage);
    assert recent.Ok? && (recent.value != [] <==> cur > 0);
    assert upNext.Ok? && (upNext.value != [] <==> start < total);
    var nowBlock := NowBlock(if total > 0 then Some(MdEscape(tracks[cur].name.s)) else None, cur, total);
    PanelNames(nowBlock, recent.value, upNext.value, page, Remaining(cur, total, page, perPage), total);
  }

  /** One more position whose track and title are fine adds its line. */
  lemma ListingStep(tracks: seq<Track>, lo: int, i: int)
    requires lo <= i && Listing(tracks, lo, i).Ok?
    requires PyIndex(tracks, i).Ok? && Escaped(PyIndex(tracks, i).value.name).Ok?
    ensures Listing(tracks, lo, i + 1) ==
      Ok(Listing(tracks, lo, i).value + [Line(i, Escaped(PyIndex(tracks, i).value.name).value)])
  {
  }

  /** The loop both listings share: one line per position from `lo` up to `hi`,
      stopping at the first position that raises. */
  method ListLines(tracks: seq<Track>, lo: int, hi: int) returns (r: Result<seq<string>>)
    ensures r == Listing(tracks, lo, hi)
  {
    var lines: seq<string> := [];
    var i := lo;
    while i < hi
      invariant lo <= i <= Max(lo, hi)
      invariant Listing(tracks, lo, i) == Ok(lines)
    {
      var item := PyIndex(tracks, i);
      if item.Err? {
        ListingFailsFrom(tracks, lo, i, hi);
        return Err(item.error);
      }
      var title := Escaped(item.value.name);
      if title.Err? {
        ListingFailsFrom(tracks, lo, i, hi);
        return Err(title.error);
      }
      ListingStep(tracks, lo, i);
      lines := lines + [Line(i, title.value)];
      i := i + 1;
    }
    return Ok(lines);
  }

  /** Builds the embed; the two listings are loops over the windows. */
  method RenderQueueEmbed(queue: QueueSnapshot, page: int, perPage: int) returns (r: Result<Embed>)
    ensures r == Render(queue, page, perPage)
  {
    var tracks := queue.tracks;
    var cur := Max(0, queue.currentIndex);
    var total := |tracks|;
    if total == 0 {
      cur := 0;
    } else if cur >= total {
      cur := total - 1;
    }
    assert cur == ClampCurrent(queue.currentIndex, total);

    var now: Result<string> := Ok("");
    if total > 0 {
      now := Escaped(tracks[cur].name);
    }
    assert now == if total > 0 then Escaped(tracks[cur].name) else Ok("");
    if now.Err? {
      return Err(now.error);
    }

    var recent: Result<seq<string>> := Ok([]);
    if total > 0 && cur > 0 {
      recent := ListLines(tracks, Max(0, cur - 3), cur);
    }
    assert recent == RecentListing(tracks, cur);
    if recent.Err? {
      return Err(recent.error);
    }

    var pageStart := PageStart(cur, page, perPage);
    var upNext: Result<seq<string>> := Ok([]);
    if total > 0 && pageStart < total {
      upNext := ListLines(tracks, pageStart, Min(total, pageStart + perPage));
    }
    assert upNext == UpNextListing(tracks, cur, page, perPage);
    if upNext.Err? {
      return Err(upNext.error);
    }
    var nowBlock := NowBlock(if total > 0 then Some(now.value) else None, cur, total);
    r := Ok(Assemble(queue, page, perPage, cur, nowBlock, recent.value, upNext.value));
  }
}
