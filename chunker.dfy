/**
 * `EmbeddingStore._chunk_text` (backend/embeddings.py): a sliding window of
 * `chunk_size` characters that backs off to a sentence boundary, each window
 * stripped and kept when non-empty, the next window starting `overlap`
 * characters before the previous one ended.
 *
 * As written, the next start `end - overlap` need not lie after the current
 * start. A boundary that ends exactly `overlap` characters into a window
 * sends the loop back to where it was, and it never ends
 * (`StallingTextNeverEnds`). A boundary that ends earlier sends the start
 * backwards, below zero near the beginning of the text, where Python reads
 * a negative index from the end; the loop may then end having skipped text
 * (`SkippingTextLosesText`). `ChunkAsWritten` models the loop as written,
 * with a budget of windows since Dafny functions must terminate, and agrees
 * with the corrected loop wherever every window moves the start forward
 * (`ChunkAsWrittenAgrees`). `ChunkText` is the loop with the start forced
 * forward, which the vector store uses.
 */
module Chunker {
  import opened Wrappers
  import opened Strings

  const ChunkSize := 500
  const Overlap := 50

  /** The sentence endings tried, in this order (the last one is listed twice). */
  const Breaks: seq<string> := [". ", ".\n", "! ", "?\n", "?\n"]

  // ================================================================ Python indexing

  /** A slice or `rfind` bound: a negative index counts from the end; the result is clamped to [0, len]. */
  function PyIndex(i: int, len: nat): (r: nat)
    ensures r <= len
    ensures 0 <= i <= len ==> r == i
    ensures i >= len ==> r == len
    ensures i < 0 ==> r >= 0 && (i + len >= 0 ==> r == i + len)
  {
    if i < 0 then (if i + len < 0 then 0 else i + len)
    else if i > len then len
    else i
  }

  /** `text[a:b]`. */
  function PySlice(text: string, a: int, b: int): (r: string)
    ensures 0 <= a <= b <= |text| ==> r == text[a..b]
    ensures 0 <= a <= |text| <= b ==> r == text[a..]
  {
    var x := PyIndex(a, |text|);
    var y := PyIndex(b, |text|);
    if x <= y then text[x..y] else []
  }

  /** The last `j` in [lo, hi - |sub|] where `sub` occurs. */
  function LastOccurrence(text: string, sub: string, lo: nat, hi: nat): (r: Option<nat>)
    requires hi <= |text|
    ensures r.Some? ==> lo <= r.value && r.value + |sub| <= hi
    decreases hi
  {
    if hi < lo + |sub| then None
    else if OccursAt(text, sub, hi - |sub|) then Some(hi - |sub|)
    else if hi == 0 then None
    else LastOccurrence(text, sub, lo, hi - 1)
  }

  /** The occurrence found is one, and no later one fits before `hi`; with none found, none fits in [lo, hi). */
  lemma {:induction false} LastOccurrenceIsLast(text: string, sub: string, lo: nat, hi: nat)
    requires hi <= |text|
    ensures var r := LastOccurrence(text, sub, lo, hi);
      && (r.Some? ==> OccursAt(text, sub, r.value))
      && (r.Some? ==> forall j :: r.value < j && j + |sub| <= hi ==> !OccursAt(text, sub, j))
      && (r.None? ==> forall j :: lo <= j && j + |sub| <= hi ==> !OccursAt(text, sub, j))
    decreases hi
  {
    if hi >= lo + |sub| && !OccursAt(text, sub, hi - |sub|) && hi > 0 {
      LastOccurrenceIsLast(text, sub, lo, hi - 1);
    }
  }

  /** `text.rfind(sub, a, b)`, with `None` for -1: the last occurrence lying wholly inside the normalised [a, b). */
  function RFind(text: string, sub: string, a: int, b: int): (r: Option<nat>)
    ensures r.Some? ==> PyIndex(a, |text|) <= r.value && r.value + |sub| <= PyIndex(b, |text|)
  {
    LastOccurrence(text, sub, PyIndex(a, |text|), PyIndex(b, |text|))
  }

  /** `rfind` finds the last occurrence inside the bounds, and -1 means there is none. */
  lemma RFindIsLast(text: string, sub: string, a: int, b: int)
    ensures var r := RFind(text, sub, a, b);
      && (r.Some? ==> OccursAt(text, sub, r.value))
      && (r.Some? ==> forall j :: r.value < j && j + |sub| <= PyIndex(b, |text|) ==> !OccursAt(text, sub, j))
      && (r.None? ==> forall j :: PyIndex(a, |text|) <= j && j + |sub| <= PyIndex(b, |text|) ==> !OccursAt(text, sub, j))
  {
    LastOccurrenceIsLast(text, sub, PyIndex(a, |text|), PyIndex(b, |text|));
  }

  // ================================================================ the window

  /**
   * The inner `for` loop: the first break type, in list order, that occurs in
   * [start, end) puts the cut two characters after its last occurrence;
   * with none, the cut stays at `end`.
   */
  function BreakCut(text: string, start: int, end: int, breaks: seq<string>): int {
    if breaks == [] then end
    else match RFind(text, breaks[0], start, end)
      case Some(i) => i + 2
      case None => BreakCut(text, start, end, breaks[1..])
  }

  /** With no break type occurring in the window, the cut stays at its end. */
  lemma {:induction false} BreakCutNoBreak(text: string, start: int, end: int, breaks: seq<string>)
    requires forall k :: 0 <= k < |breaks| ==> RFind(text, breaks[k], start, end).None?
    ensures BreakCut(text, start, end, breaks) == end
  {
    if breaks != [] {
      BreakCutNoBreak(text, start, end, breaks[1..]);
    }
  }

  /** The first break type that occurs decides the cut, whatever the later ones would give. */
  lemma {:induction false} BreakCutFirstFound(text: string, start: int, end: int, breaks: seq<string>, j: nat)
    requires j < |breaks| && RFind(text, breaks[j], start, end).Some?
    requires forall k :: 0 <= k < j ==> RFind(text, breaks[k], start, end).None?
    ensures BreakCut(text, start, end, breaks) == RFind(text, breaks[j], start, end).value + 2
  {
    if j > 0 {
      BreakCutFirstFound(text, start, end, breaks[1..], j - 1);
    }
  }

  /** The window end for a window starting at `start`: backed off to a sentence boundary unless the window reaches the end of the text. */
  function WindowEnd(text: string, start: int): int {
    var end := start + ChunkSize;
    if end < |text| then BreakCut(text, start, end, Breaks) else end
  }

  /** The chunk a window gives: the stripped slice, kept only when non-empty. */
  function WindowChunk(text: string, start: int, end: int): Option<string> {
    var chunk := Strip(PySlice(text, start, end));
    if chunk != [] then Some(chunk) else None
  }

  /** The chunk a window keeps, as a list of zero or one chunks. */
  function Kept(c: Option<string>): (r: seq<string>)
    ensures |r| <= 1
  {
    if c.Some? then [c.value] else []
  }

  /** The inner loop as a method: the delimiters are tried in order and the first one found decides. */
  method FindWindowEnd(text: string, start: int) returns (end: int)
    ensures end == WindowEnd(text, start)
  {
    end := start + ChunkSize;
    if end < |text| {
      ghost var e0 := end;
      var k := 0;
      while k < |Breaks|
        invariant 0 <= k <= |Breaks|
        invariant end == e0
        invariant BreakCut(text, start, e0, Breaks) == BreakCut(text, start, e0, Breaks[k..])
      {
        var lastBreak := RFind(text, Breaks[k], start, end);
        if lastBreak.Some? {
          end := lastBreak.value + 2;
          return;
        }
        assert Breaks[k..][1..] == Breaks[k + 1..];
        k := k + 1;
      }
    }
  }

  // ================================================================ the loop as written

  /** The next start of the loop as written: `overlap` characters before the window end, wherever that is. */
  function NextAsWritten(text: string, start: int): int {
    WindowEnd(text, start) - Overlap
  }

  /** The budget of windows left once one more window is taken. */
  function Spent(fuel: nat): (left: nat)
    requires fuel > 0
    ensures left < fuel
  {
    fuel - 1
  }

  /** The chunks `done` so far in front of the outcome of the rest of a run. */
  function Then(done: seq<string>, rest: Option<seq<string>>): Option<seq<string>> {
    if rest.Some? then Some(done + rest.value) else None
  }

  /**
   * The window loop as written from `start`, for at most `fuel` windows:
   * the chunks, or `None` when the loop is still running after `fuel`
   * windows.
   */
  function RunAsWritten(text: string, start: int, fuel: nat): Option<seq<string>>
    decreases fuel
  {
    if start >= |text| then Some([])
    else if fuel == 0 then None
    else Then(Kept(WindowChunk(text, start, WindowEnd(text, start))), RunAsWritten(text, NextAsWritten(text, start), Spent(fuel)))
  }

  /** `_chunk_text` as written, with a budget of `fuel` windows. */
  function ChunkAsWritten(text: string, fuel: nat): Option<seq<string>> {
    if |text| <= ChunkSize then Some([text]) else RunAsWritten(text, 0, fuel)
  }

  /** `_chunk_text` as written, its `while` loop cut off after `fuel` windows. */
  method ChunkTextAsWritten(text: string, fuel: nat) returns (r: Option<seq<string>>)
    ensures r == ChunkAsWritten(text, fuel)
  {
    if |text| <= ChunkSize {
      return Some([text]);
    }
    var chunks: seq<string> := [];
    var start: int := 0;
    var budget := fuel;
    ghost var whole := RunAsWritten(text, start, fuel);
    ThenNothing(whole);
    while start < |text| && budget > 0
      invariant whole == Then(chunks, RunAsWritten(text, start, budget))
      decreases budget
    {
      chunks, start, budget := Advance(text, whole, chunks, start, budget);
    }
    RunStops(text, start, budget);
    ThenNothing(Some(chunks));
    r := if start < |text| then None else Some(chunks);
  }

  /** One pass of the loop as written: the window's chunk, if kept, joins the chunks so far, and the start moves to the next window. */
  method Advance(text: string, ghost whole: Option<seq<string>>, chunks: seq<string>, start: int, budget: nat)
    returns (chunks': seq<string>, start': int, budget': nat)
    requires start < |text| && budget > 0
    requires whole == Then(chunks, RunAsWritten(text, start, budget))
    ensures budget' < budget
    ensures whole == Then(chunks', RunAsWritten(text, start', budget'))
  {
    var kept, next := StepWindow(text, start);
    LoopStep(text, chunks, start, budget, kept, next);
    chunks', start', budget' := chunks + kept, next, Spent(budget);
  }

  /** The loop body as written: the window end, the stripped window kept when non-empty, and the next start. */
  method StepWindow(text: string, start: int) returns (kept: seq<string>, next: int)
    ensures kept == Kept(WindowChunk(text, start, WindowEnd(text, start)))
    ensures next == NextAsWritten(text, start)
  {
    var end := FindWindowEnd(text, start);
    var chunk := Strip(PySlice(text, start, end));
    kept := if chunk != [] then [chunk] else [];
    next := end - Overlap;
  }

  /** One pass of the loop moves the window's chunks from the rest of the run to the chunks made so far. */
  lemma LoopStep(text: string, chunks: seq<string>, start: int, budget: nat, kept: seq<string>, next: int)
    requires start < |text| && budget > 0
    requires kept == Kept(WindowChunk(text, start, WindowEnd(text, start)))
    requires next == NextAsWritten(text, start)
    ensures Then(chunks, RunAsWritten(text, start, budget)) == Then(chunks + kept, RunAsWritten(text, next, Spent(budget)))
  {
    RunStep(text, start, budget, next);
    ThenMove(chunks, kept, RunAsWritten(text, next, Spent(budget)));
  }

  /** The run ends with no chunks once the start is past the text, and is still running when the budget is spent. */
  lemma RunStops(text: string, start: int, fuel: nat)
    ensures start >= |text| ==> RunAsWritten(text, start, fuel) == Some([])
    ensures start < |text| && fuel == 0 ==> RunAsWritten(text, start, fuel) == None
  {
  }

  // ThenNothing and ThenMove only name the empty-sequence and regrouping
  // steps of `Then` for the solver, so the callers' unfoldings stay small.
  /** Nothing done and nothing left add no chunks. */
  lemma ThenNothing(rest: Option<seq<string>>)
    ensures Then([], rest) == rest
    ensures rest.Some? ==> Then(rest.value, Some([])) == rest
  {
    if rest.Some? {
      assert [] + rest.value == rest.value;
      assert rest.value + [] == rest.value;
    }
  }

  /** Moving one window's chunks from the rest of the run to the chunks made so far. */
  lemma ThenMove(done: seq<string>, kept: seq<string>, rest: Option<seq<string>>)
    ensures Then(done, Then(kept, rest)) == Then(done + kept, rest)
  {
    if rest.Some? {
      assert done + (kept + rest.value) == (done + kept) + rest.value;
    }
  }

  /** A start that the loop maps to itself is never left: the loop runs forever from there. */
  lemma {:induction false} FixedStartNeverEnds(text: string, start: int, fuel: nat)
    requires start < |text| && NextAsWritten(text, start) == start
    ensures RunAsWritten(text, start, fuel) == None
  {
    if fuel > 0 {
      FixedStartNeverEnds(text, start, Spent(fuel));
    }
  }

  /** Without a sentence boundary in the window, the start moves on by exactly `chunk_size - overlap`. */
  lemma NoBreakAdvances(text: string, start: int)
    requires start + ChunkSize < |text|
    requires forall k :: 0 <= k < |Breaks| ==> RFind(text, Breaks[k], start, start + ChunkSize).None?
    ensures NextAsWritten(text, start) == start + ChunkSize - Overlap
  {
    BreakCutNoBreak(text, start, start + ChunkSize, Breaks);
  }

  /**
   * Every window the loop as written visits from `start` moves the start
   * forward: from there on it visits the same windows as the loop with the
   * start forced forward.
   */
  predicate AllAdvance(text: string, start: nat)
    decreases |text| - start
  {
    start >= |text| ||
    (NextAsWritten(text, start) > start && AllAdvance(text, NextAsWritten(text, start)))
  }

  /**
   * Where every window moves the start forward, the loop as written ends
   * within one window per character and gives the chunks of the loop with
   * the start forced forward.
   */
  lemma {:induction false} RunAsWrittenAgrees(text: string, start: nat, fuel: nat)
    requires AllAdvance(text, start)
    requires fuel >= |text| - start
    ensures RunAsWritten(text, start, fuel) == Some(ChunksFrom(text, start))
    decreases |text| - start, 1
  {
    if start < |text| {
      var next := AdvancedStart(text, start);
      AgreeStep(text, start, fuel, next);
    } else {
      assert Windows(text, start) == [];
    }
  }

  /** The next start of a window that moves the start forward. */
  lemma AdvancedStart(text: string, start: nat) returns (next: nat)
    requires start < |text| && AllAdvance(text, start)
    ensures next == NextAsWritten(text, start) && next > start && AllAdvance(text, next)
  {
    next := NextAsWritten(text, start);
  }

  /** A window that moves the start forward: the run from it agrees when the run from the next start does. */
  lemma {:induction false} AgreeStep(text: string, start: nat, fuel: nat, next: nat)
    requires start < |text| && fuel > 0
    requires next == NextAsWritten(text, start) && next > start
    requires AllAdvance(text, next) && Spent(fuel) >= |text| - next
    ensures RunAsWritten(text, start, fuel) == Some(ChunksFrom(text, start))
    decreases |text| - start, 0
  {
    RunAsWrittenAgrees(text, next, Spent(fuel));
    RunStep(text, start, fuel, next);
    ChunksFromNext(text, start);
    assert NextStart(start, WindowEnd(text, start)) == next;
  }

  /** One window of the loop as written, while the budget lasts: its chunk, then the rest of the run. */
  lemma {:induction false} RunStep(text: string, start: int, fuel: nat, next: int)
    requires start < |text| && fuel > 0 && next == NextAsWritten(text, start)
    ensures RunAsWritten(text, start, fuel) ==
      Then(Kept(WindowChunk(text, start, WindowEnd(text, start))), RunAsWritten(text, next, Spent(fuel)))
  {
  }

  /** `_chunk_text` as written ends and agrees with `ChunkSpec` on every text whose windows all move the start forward. */
  lemma ChunkAsWrittenAgrees(text: string, fuel: nat)
    requires AllAdvance(text, 0) && fuel >= |text|
    ensures ChunkAsWritten(text, fuel) == Some(ChunkSpec(text))
  {
    if |text| > ChunkSize {
      RunAsWrittenAgrees(text, 0, fuel);
    }
  }

  /** A window whose only sentence boundary ends at `cut` and which is cut there. */
  lemma FirstBoundaryCut(t: string, start: nat, cut: nat)
    requires start + ChunkSize < |t| && start + 2 <= cut <= start + ChunkSize
    requires t[cut - 2] == '.' && t[cut - 1] == ' '
    requires forall j :: cut - 2 < j < start + ChunkSize ==> t[j] != '.'
    ensures WindowEnd(t, start) == cut
  {
    var r := RFind(t, ". ", start, start + ChunkSize);
    RFindIsLast(t, ". ", start, start + ChunkSize);
    assert OccursAt(t, ". ", cut - 2) by {
      assert t[cut - 2..cut] == ". ";
    }
    forall j | cut - 2 < j && j + 2 <= start + ChunkSize
      ensures !OccursAt(t, ". ", j)
    {
      assert t[j] != '.';
    }
    assert r == Some(cut - 2);
    BreakCutFirstFound(t, start, start + ChunkSize, Breaks, 0);
  }

  /** 48 letters, a full stop and a space, then 500 more letters. */
  function StallingText(): (t: string)
    ensures |t| == 550
  {
    seq(550, k => if k < 48 then 'a' else if k == 48 then '.' else if k == 49 then ' ' else 'b')
  }

  /**
   * The text above is longer than a window; its only sentence boundary ends
   * at position 50, so the first window is cut there and the next start is
   * 50 - 50 = 0 again: the loop as written never ends on it.
   */
  lemma StallingTextNeverEnds(fuel: nat)
    ensures ChunkAsWritten(StallingText(), fuel) == None
  {
    var t := StallingText();
    FirstBoundaryCut(t, 0, 50);
    FixedStartNeverEnds(t, 0, fuel);
  }

  /** 8 letters, a full stop and a space, then 590 more letters. */
  function SkippingText(): (t: string)
    ensures |t| == 600
  {
    seq(600, k => if k < 8 then 'a' else if k == 8 then '.' else if k == 9 then ' ' else 'b')
  }

  /** Stripping a text that ends in one space after a non-space drops just that space. */
  lemma StripTrailingSpace(s: string)
    requires |s| >= 2 && !IsSpace(s[0]) && !IsSpace(s[|s| - 2]) && IsSpace(s[|s| - 1])
    ensures Strip(s) == s[..|s| - 1]
  {
    assert StripLeft(s) == s;
    assert StripRight(s) == StripRight(s[..|s| - 1]);
  }

  /**
   * A window starting before position 0, but less than `chunk_size` back,
   * is read by Python from `len + start`, which lies past its own end: it
   * finds no boundary and gives no chunk.
   */
  lemma BackwardsWindow(t: string, start: int)
    requires -ChunkSize <= start < 0 && |t| > ChunkSize
    ensures WindowEnd(t, start) == start + ChunkSize
    ensures WindowChunk(t, start, start + ChunkSize) == None
  {
    assert PyIndex(start, |t|) == start + |t|;
    assert PyIndex(start + ChunkSize, |t|) == start + ChunkSize;
    forall k | 0 <= k < |Breaks| ensures RFind(t, Breaks[k], start, start + ChunkSize).None? {
    }
    BreakCutNoBreak(t, start, start + ChunkSize, Breaks);
    assert PySlice(t, start, start + ChunkSize) == [];
  }

  /** The first window of the text below is cut after its sentence boundary, the space stripped. */
  lemma SkippingFirstWindow()
    ensures var t := SkippingText();
      WindowEnd(t, 0) == 10 && WindowChunk(t, 0, 10) == Some(t[..9])
  {
    var t := SkippingText();
    FirstBoundaryCut(t, 0, 10);
    StripTrailingSpace(t[0..10]);
    assert t[0..10][..9] == t[..9];
    assert PySlice(t, 0, 10) == t[0..10];
  }

  /** The window from 410 reaches the end of the text below, and is all letters. */
  lemma SkippingLastWindow()
    ensures var t := SkippingText();
      WindowEnd(t, 410) == 910 && WindowChunk(t, 410, 910) == Some(t[410..])
  {
    var t := SkippingText();
    assert IsStripped(t[410..]) by {
      assert t[410..][0] == 'b' && t[410..][189] == 'b';
    }
    StripOfStripped(t[410..]);
    assert PySlice(t, 410, 910) == t[410..];
  }

  /**
   * On the text below the loop as written ends, but skips text: the first
   * window is cut at 10, the next start is 10 - 50 = -40, which Python reads
   * as 560, so that window is empty; the start after it is 410. Characters
   * 10 to 409 are in no chunk.
   */
  lemma SkippingTextLosesText(fuel: nat)
    requires fuel >= 3
    ensures var t := SkippingText();
      ChunkAsWritten(t, fuel) == Some([t[..9], t[410..]])
  {
    var t := SkippingText();
    SkippingFirstWindow();
    BackwardsWindow(t, -40);
    SkippingLastWindow();
    ThreeWindowRun(t, fuel, 0, -40, 410, t[..9], t[410..]);
  }

  /** A run of three windows, the middle one empty, the last one ending the loop. */
  lemma {:induction false} ThreeWindowRun(t: string, fuel: nat, s0: int, s1: int, s2: int, first: string, last: string)
    requires fuel >= 3 && s0 < |t| && s1 < |t| && s2 < |t|
    requires NextAsWritten(t, s0) == s1 && Kept(WindowChunk(t, s0, WindowEnd(t, s0))) == [first]
    requires NextAsWritten(t, s1) == s2 && Kept(WindowChunk(t, s1, WindowEnd(t, s1))) == []
    requires NextAsWritten(t, s2) >= |t| && Kept(WindowChunk(t, s2, WindowEnd(t, s2))) == [last]
    ensures RunAsWritten(t, s0, fuel) == Some([first, last])
  {
    var s3 := NextAsWritten(t, s2);
    RunStops(t, s3, Spent(Spent(Spent(fuel))));
    RunStep(t, s2, Spent(Spent(fuel)), s3);
    ThenNothing(Some([last]));
    RunStep(t, s1, Spent(fuel), s2);
    ThenNothing(RunAsWritten(t, s2, Spent(Spent(fuel))));
    RunStep(t, s0, fuel, s1);
    Pair(first, last);
  }

  lemma Pair(first: string, last: string)
    ensures [first] + [last] == [first, last]
  {
  }

  // ================================================================ the loop with the start forced forward

  /** The next start: `overlap` characters before the window end, or the window end itself when that would not move forward. */
  function NextStart(start: nat, end: int): (next: nat)
    requires end > start
    ensures next > start
    ensures next <= end
  {
    if end - Overlap > start then end - Overlap else end
  }

  /** A window that starts inside the text ends after its start and at most `chunk_size` characters later. */
  lemma WindowEndBounds(text: string, start: nat)
    requires start < |text|
    ensures start < WindowEnd(text, start) <= start + ChunkSize
  {
    var end := start + ChunkSize;
    if end < |text| {
      BreakCutBounds(text, start, end, Breaks);
    }
  }

  lemma {:induction false} BreakCutBounds(text: string, start: nat, end: nat, breaks: seq<string>)
    requires start < end <= |text|
    requires forall k :: 0 <= k < |breaks| ==> |breaks[k]| == 2
    ensures start < BreakCut(text, start, end, breaks) <= end
  {
    if breaks != [] && RFind(text, breaks[0], start, end).None? {
      BreakCutBounds(text, start, end, breaks[1..]);
    }
  }

  /** The windows from `start` on, as (start, end) pairs clamped to the text. */
  function Windows(text: string, start: nat): (ws: seq<(nat, nat)>)
    decreases |text| - start
  {
    if start >= |text| then []
    else
      WindowEndBounds(text, start);
      var end := WindowEnd(text, start);
      [(start, if end < |text| then end else |text|)] + Windows(text, NextStart(start, end))
  }

  /** The chunks of a run of windows, in order. */
  function ChunksOf(text: string, ws: seq<(nat, nat)>): seq<string> {
    if ws == [] then [] else Kept(WindowChunk(text, ws[0].0, ws[0].1)) + ChunksOf(text, ws[1..])
  }

  /** The chunks of the windows from `start` on. */
  function ChunksFrom(text: string, start: nat): seq<string> {
    ChunksOf(text, Windows(text, start))
  }

  /** What `_chunk_text` returns with the start forced forward. */
  function ChunkSpec(text: string): seq<string> {
    if |text| <= ChunkSize then [text] else ChunksFrom(text, 0)
  }

  /**
   * The windows are non-empty, at most `chunk_size` long, lie inside the
   * text, and follow each other without a gap: the first starts at `start`,
   * each starts at or before the previous one's end, the last ends at the
   * end of the text. Together they cover every character from `start` on.
   */
  lemma {:induction false} WindowsWellFormed(text: string, start: nat)
    requires start < |text|
    ensures var ws := Windows(text, start);
      && ws != [] && ws[0].0 == start && ws[|ws| - 1].1 == |text|
      && (forall k :: 0 <= k < |ws| ==> ws[k].0 < ws[k].1 <= |text| && ws[k].1 - ws[k].0 <= ChunkSize)
      && (forall k :: 0 < k < |ws| ==> ws[k - 1].0 < ws[k].0 <= ws[k - 1].1)
    decreases |text| - start
  {
    WindowEndBounds(text, start);
    var end := WindowEnd(text, start);
    var next := NextStart(start, end);
    var ws := Windows(text, start);
    var first := (start, if end < |text| then end else |text|);
    if next < |text| {
      WindowsWellFormed(text, next);
      var rest := Windows(text, next);
      assert ws == [first] + rest;
      forall k | 0 < k < |ws| ensures ws[k - 1].0 < ws[k].0 <= ws[k - 1].1 {
        if k > 1 {
          assert ws[k - 1] == rest[k - 2] && ws[k] == rest[k - 1];
        }
      }
    } else {
      assert ws == [first];
    }
  }

  /** Every character of the text lies in one of the windows from 0: the loop skips no text. */
  lemma WindowsCover(text: string, i: nat)
    requires i < |text|
    ensures exists k :: 0 <= k < |Windows(text, 0)| && Windows(text, 0)[k].0 <= i < Windows(text, 0)[k].1
  {
    WindowsWellFormed(text, 0);
    var ws := Windows(text, 0);
    var k := 0;
    while k + 1 < |ws| && ws[k + 1].0 <= i
      invariant 0 <= k < |ws| && ws[k].0 <= i
      decreases |ws| - k
    {
      k := k + 1;
    }
    assert ws[k].0 <= i < ws[k].1;
  }

  /** A chunk as the window loop makes it: non-empty, stripped, at most `chunk_size` long, the strip of a slice of the text. */
  predicate ChunkOfText(text: string, c: string) {
    && c != [] && IsStripped(c) && |c| <= ChunkSize
    && exists a, b :: 0 <= a <= b <= |text| && c == Strip(text[a..b])
  }

  lemma StripShorter(s: string)
    ensures |Strip(s)| <= |s|
  {
  }

  /** The chunk of a window inside the text and no longer than `chunk_size` is a chunk of the text. */
  lemma SliceChunkOfText(text: string, a: nat, b: nat)
    requires a <= b <= |text| && b - a <= ChunkSize
    ensures WindowChunk(text, a, b).Some? ==> ChunkOfText(text, WindowChunk(text, a, b).value)
  {
    var c := WindowChunk(text, a, b);
    if c.Some? {
      assert c.value == Strip(text[a..b]);
      StripShorter(text[a..b]);
    }
  }

  /** Every chunk of a run of windows inside the text, none longer than `chunk_size`, is a chunk of the text. */
  lemma {:induction false} ChunksOfWellFormed(text: string, ws: seq<(nat, nat)>)
    requires forall k :: 0 <= k < |ws| ==> ws[k].0 <= ws[k].1 <= |text| && ws[k].1 - ws[k].0 <= ChunkSize
    ensures forall c :: c in ChunksOf(text, ws) ==> ChunkOfText(text, c)
  {
    if ws != [] {
      ChunksOfWellFormed(text, ws[1..]);
      SliceChunkOfText(text, ws[0].0, ws[0].1);
    }
  }

  /**
   * `_chunk_text`: text of at most `chunk_size` characters is the only
   * chunk, unchanged; a longer text gives chunks that are non-empty,
   * stripped, at most `chunk_size` long and each the strip of a slice of
   * the text.
   */
  lemma ChunkSpecWellFormed(text: string)
    ensures |text| <= ChunkSize ==> ChunkSpec(text) == [text]
    ensures |text| > ChunkSize ==> forall c :: c in ChunkSpec(text) ==> ChunkOfText(text, c)
  {
    if |text| > ChunkSize {
      WindowsWellFormed(text, 0);
      ChunksOfWellFormed(text, Windows(text, 0));
    }
  }

  /** One window of the loop: its chunk, if any, then the chunks from the next start. */
  lemma ChunksFromNext(text: string, start: nat)
    requires start < |text|
    ensures WindowEnd(text, start) > start
    ensures ChunksFrom(text, start) ==
      Kept(WindowChunk(text, start, WindowEnd(text, start))) + ChunksFrom(text, NextStart(start, WindowEnd(text, start)))
  {
    WindowEndBounds(text, start);
    var end := WindowEnd(text, start);
    var stop := if end < |text| then end else |text|;
    assert PySlice(text, start, end) == PySlice(text, start, stop);
    assert Windows(text, start)[1..] == Windows(text, NextStart(start, end));
  }

  /** One pass of the window loop body: the window's chunk, if kept, and the next start. */
  method NextWindow(text: string, start: nat) returns (chunk: Option<string>, next: nat)
    requires start < |text|
    ensures next > start
    ensures ChunksFrom(text, start) == Kept(chunk) + ChunksFrom(text, next)
  {
    var end := FindWindowEnd(text, start);
    ChunksFromNext(text, start);
    var c := Strip(PySlice(text, start, end));
    chunk := if c != [] then Some(c) else None;
    next := NextStart(start, end);
  }

  /** `_chunk_text` with the start forced forward: the window loop. */
  method ChunkText(text: string) returns (chunks: seq<string>)
    ensures chunks == ChunkSpec(text)
  {
    if |text| <= ChunkSize {
      chunks := [text];
    } else {
      chunks := ChunkWindows(text);
    }
  }

  /** The window loop of `_chunk_text`, for text longer than one window. */
  method ChunkWindows(text: string) returns (chunks: seq<string>)
    requires |text| > ChunkSize
    ensures chunks == ChunksFrom(text, 0)
  {
    chunks := [];
    var start: nat := 0;
    while start < |text|
      invariant chunks + ChunksFrom(text, start) == ChunksFrom(text, 0)
      decreases |text| - start
    {
      var chunk, next := NextWindow(text, start);
      Regroup(chunks, Kept(chunk), ChunksFrom(text, next), ChunksFrom(text, 0));
      chunks := chunks + Kept(chunk);
      start := next;
    }
  }

  lemma Regroup(done: seq<string>, kept: seq<string>, rest: seq<string>, whole: seq<string>)
    requires done + (kept + rest) == whole
    ensures (done + kept) + rest == whole
  {
  }
}
