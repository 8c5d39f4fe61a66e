/**
 * TranscriptParser (backend/transcript_parser.py): turns a plain-text, JSON-string
 * or dict transcript into one canonical record.
 *
 * The two line scanners (`_parse_plain_text`, `_parse_speaker_tagged`) are
 * methods with loops, each proved equal to a specification function that folds
 * one step per line or per segment; `_clean_text`, `_parse_dict`, `parse` and
 * the `get_*` accessors are functions. `json.loads` is the parameter `decode`
 * and `str()` of a non-string value is the parameter `render`.
 */
module TranscriptParser {
  import opened Wrappers
  import opened Strings
  import opened JsonValues

  // ================================================================ data model

  datatype Format = PlainText | SpeakerTagged | JsonFormat

  /** One segment. An optional field is `None` when the key is absent from the segment dict. */
  datatype Segment = Segment(
    speaker: Json,
    text: string,
    timestamp: Option<Json>,
    startTime: Option<Json>,
    endTime: Option<Json>)

  /**
   * The canonical dict. `title`, `meetingId` and `languageHint` are `None` when
   * the key is absent; `Some(JNull)` is a key present with value None.
   * `speakers` is built from a Python set, so it is a set here.
   */
  datatype Transcript = Transcript(
    format: Format,
    text: string,
    speakers: set<Json>,
    segments: seq<Segment>,
    title: Option<Json>,
    meetingId: Option<Json>,
    languageHint: Option<Json>)

  /** The two input types `parse` accepts, and anything else. */
  datatype RawTranscript = RawText(s: string) | RawDict(fields: map<string, Json>) | RawOther

  function UnknownSegment(text: string): Segment {
    Segment(JStr("Unknown"), text, None, None, None)
  }

  // ================================================================ _clean_text

  /** Whitespace occurs only as single ASCII spaces. */
  predicate SingleSpaced(t: string) {
    forall i :: 0 <= i < |t| && IsSpace(t[i]) ==> t[i] == ' ' && (i + 1 < |t| ==> !IsSpace(t[i + 1]))
  }

  /** What `_clean_text` produces: no whitespace at the ends, no newline, no run of two spaces. */
  predicate IsClean(t: string) {
    IsStripped(t) && SingleSpaced(t)
  }

  /** `re.sub(r'\s+', ' ', s)`: every maximal run of whitespace becomes one space. */
  function CollapseSpaces(s: string): (r: string)
    ensures (r == []) == (s == [])
    ensures s != [] ==> r[0] == (if IsSpace(s[0]) then ' ' else s[0])
    decreases |s|
  {
    if s == [] then []
    else if IsSpace(s[0]) then " " + CollapseSpaces(StripLeft(s))
    else [s[0]] + CollapseSpaces(s[1..])
  }

  lemma PrependSingleSpaced(c: char, r: string)
    requires SingleSpaced(r)
    requires IsSpace(c) ==> c == ' ' && (r == [] || !IsSpace(r[0]))
    ensures SingleSpaced([c] + r)
  {
    var u := [c] + r;
    forall i | 0 <= i < |u| && IsSpace(u[i])
      ensures u[i] == ' ' && (i + 1 < |u| ==> !IsSpace(u[i + 1]))
    {
      if i > 0 {
        assert u[i] == r[i - 1];
        if i + 1 < |u| { assert u[i + 1] == r[i]; }
      }
    }
  }

  lemma {:induction false} CollapseSingleSpaced(s: string)
    ensures SingleSpaced(CollapseSpaces(s))
    decreases |s|
  {
    if s != [] {
      if IsSpace(s[0]) {
        CollapseSingleSpaced(StripLeft(s));
        PrependSingleSpaced(' ', CollapseSpaces(StripLeft(s)));
      } else {
        CollapseSingleSpaced(s[1..]);
        PrependSingleSpaced(s[0], CollapseSpaces(s[1..]));
      }
    }
  }

  lemma SubstringSingleSpaced(t: string, a: nat, b: nat)
    requires a <= b <= |t| && SingleSpaced(t)
    ensures SingleSpaced(t[a..b])
  {
    var u := t[a..b];
    forall i | 0 <= i < |u| && IsSpace(u[i])
      ensures u[i] == ' ' && (i + 1 < |u| ==> !IsSpace(u[i + 1]))
    {
      assert u[i] == t[a + i];
      if i + 1 < |u| { assert u[i + 1] == t[a + i + 1]; }
    }
  }

  /**
   * `_clean_text`: "" for an empty string; otherwise whitespace runs collapsed
   * to one space and the ends stripped. The third step of the source,
   * `re.sub(r'\n\s*\n', '\n', ...)`, finds no newline left and changes nothing.
   */
  function Clean(s: string): (r: string)
    ensures IsClean(r)
    ensures s == [] ==> r == []
  {
    if s == [] then []
    else
      var c := CollapseSpaces(s);
      var r := Strip(c);
      CollapseSingleSpaced(s);
      SubstringSingleSpaced(c, LeadingSpaces(c), LeadingSpaces(c) + |r|);
      r
  }

  lemma {:induction false} CollapseNonSpacePrefix(w: string, rest: string)
    requires NoSpaces(w)
    ensures CollapseSpaces(w + rest) == w + CollapseSpaces(rest)
  {
    if w != [] {
      assert (w + rest)[1..] == w[1..] + rest;
      CollapseNonSpacePrefix(w[1..], rest);
    } else {
      assert w + rest == rest;
    }
  }

  lemma SplitWordsFirstWord(t: string)
    requires t != [] && !IsSpace(t[0])
    ensures SplitWords(t) == [Word(t)] + SplitWords(t[|Word(t)|..])
  {
    assert StripLeft(t) == t;
  }

  lemma CollapseSpaceStart(s: string)
    requires s != [] && IsSpace(s[0])
    ensures CollapseSpaces(s) == " " + CollapseSpaces(StripLeft(s))
    ensures SplitWords(s) == SplitWords(StripLeft(s))
  {
    SplitWordsSkipsSpaces(s, StripLeft(s));
  }

  lemma JoinCons(w: string, ws: seq<string>)
    requires ws != []
    ensures Join([w] + ws, " ") == w + " " + Join(ws, " ")
  {
    assert ([w] + ws)[1..] == ws;
  }

  /** " " when `s` ends in whitespace, "" otherwise. */
  function Trailer(s: string): string {
    if s != [] && IsSpace(s[|s| - 1]) then " " else ""
  }

  lemma ConcatAssoc(a: string, b: string, c: string, d: string)
    ensures a + (b + (c + d)) == a + b + c + d
  {
  }

  lemma LastOfSuffix(t: string, k: nat, t': string)
    requires k <= |t| && |t'| <= |t| - k && t' == t[k..][|t| - k - |t'|..] && t' != []
    ensures t[|t| - 1] == t'[|t'| - 1]
  {
  }

  /** From a non-whitespace start, collapsing gives the words joined by single spaces, plus one trailing space if `t` ends in whitespace. */
  lemma {:induction false} CollapseAsWords(t: string)
    requires t != [] && !IsSpace(t[0])
    ensures CollapseSpaces(t) == Join(SplitWords(t), " ") + Trailer(t)
    decreases |t|, 1
  {
    var w := Word(t);
    var rest := t[|w|..];
    if rest == [] {
      CollapseOneWord(t);
    } else if StripLeft(rest) == [] {
      CollapseWordThenSpaces(t);
    } else {
      CollapseWordThenMore(t);
    }
  }

  lemma CollapseOneWord(t: string)
    requires t != [] && !IsSpace(t[0]) && |Word(t)| == |t|
    ensures CollapseSpaces(t) == Join(SplitWords(t), " ") + Trailer(t)
  {
    var w := Word(t);
    SplitAt(t, |w|);
    SplitWordsFirstWord(t);
    CollapseNonSpacePrefix(w, []);
    assert SplitWords(t[|w|..]) == [];
    assert [w] + [] == [w];
    assert Trailer(t) == [];
  }

  lemma CollapseWordThenSpaces(t: string)
    requires t != [] && !IsSpace(t[0]) && |Word(t)| < |t| && StripLeft(t[|Word(t)|..]) == []
    ensures CollapseSpaces(t) == Join(SplitWords(t), " ") + Trailer(t)
  {
    var w := Word(t);
    var rest := t[|w|..];
    SplitAt(t, |w|);
    SplitWordsFirstWord(t);
    CollapseNonSpacePrefix(w, rest);
    CollapseSpaceStart(rest);
    LastOfDrop(t, |w|);
    TrailerOfLast(t, rest);
    TrailerSpace(rest);
    GlueWordSpace(CollapseSpaces(t), w, CollapseSpaces(rest), SplitWords(t), SplitWords(rest), Trailer(t));
  }

  lemma TrailerSpace(rest: string)
    requires rest != [] && StripLeft(rest) == []
    ensures Trailer(rest) == " "
  {
    assert IsSpace(rest[|rest| - 1]);
  }

  lemma LastOfDrop(t: string, k: nat)
    requires k < |t|
    ensures t[k..][|t| - k - 1] == t[|t| - 1]
  {
  }

  lemma GlueWordSpace(c: string, w: string, cr: string, ws: seq<string>, wr: seq<string>, tr: string)
    requires c == w + cr && cr == " " + CollapseSpaces([]) && ws == [w] + wr && wr == SplitWords([]) && tr == " "
    ensures c == Join(ws, " ") + tr
  {
    assert ws == [w];
  }

  lemma {:induction false} CollapseWordThenMore(t: string)
    requires t != [] && !IsSpace(t[0]) && |Word(t)| < |t| && StripLeft(t[|Word(t)|..]) != []
    ensures CollapseSpaces(t) == Join(SplitWords(t), " ") + Trailer(t)
    decreases |t|, 0
  {
    var w := Word(t);
    var t' := StripLeft(t[|w|..]);
    WordThenMoreShape(t);
    CollapseAsWords(t');
    JoinCons(w, SplitWords(t'));
    GlueCollapse(CollapseSpaces(t), w, CollapseSpaces(t'), Join(SplitWords(t'), " "), Trailer(t), Join(SplitWords(t), " "));
  }

  /** A word, then whitespace, then more text `t'`. */
  lemma WordThenMoreShape(t: string)
    requires t != [] && !IsSpace(t[0]) && |Word(t)| < |t| && StripLeft(t[|Word(t)|..]) != []
    ensures var t' := StripLeft(t[|Word(t)|..]);
      && CollapseSpaces(t) == Word(t) + (" " + CollapseSpaces(t'))
      && SplitWords(t) == [Word(t)] + SplitWords(t')
      && Trailer(t) == Trailer(t')
      && t' != [] && !IsSpace(t'[0]) && |t'| < |t|
  {
    var w := Word(t);
    var rest := t[|w|..];
    var t' := StripLeft(rest);
    SplitAt(t, |w|);
    SplitWordsFirstWord(t);
    CollapseNonSpacePrefix(w, rest);
    CollapseSpaceStart(rest);
    LastOfSuffix(t, |w|, t');
    TrailerOfLast(t, t');
  }

  lemma TrailerOfLast(a: string, b: string)
    requires a != [] && b != [] && a[|a| - 1] == b[|b| - 1]
    ensures Trailer(a) == Trailer(b)
  {
  }

  lemma GlueCollapse(c: string, w: string, ct: string, j: string, tr: string, jt: string)
    requires c == w + (" " + ct) && ct == j + tr && jt == w + " " + j
    ensures c == jt + tr
  {
  }

  lemma StripLeftAfterSpace(x: string)
    requires x != [] && !IsSpace(x[0])
    ensures StripLeft(" " + x) == x
  {
    assert (" " + x)[1..] == x;
  }

  lemma StripRightBeforeSpace(j: string)
    requires j != [] && !IsSpace(j[|j| - 1])
    ensures StripRight(j + " ") == j
  {
    assert (j + " ")[..|j|] == j;
  }

  lemma StripPadded(j: string, t: string)
    requires j != [] && IsStripped(j)
    ensures Strip(j + Trailer(t)) == j && Strip(" " + (j + Trailer(t))) == j
  {
    var tr := Trailer(t);
    assert (j + tr)[0] == j[0];
    StripLeftAfterSpace(j + tr);
    assert StripLeft(j + tr) == j + tr;
    if t != [] && IsSpace(t[|t| - 1]) {
      StripRightBeforeSpace(j);
    } else {
      assert j + tr == j;
    }
  }

  lemma CleanAllSpaces(s: string)
    requires s != [] && StripLeft(s) == []
    ensures Clean(s) == [] && SplitWords(s) == []
  {
    CollapseAllSpaces(s);
    StripOneSpace();
    GlueClean(Clean(s), CollapseSpaces(s), " ", []);
  }

  lemma CollapseAllSpaces(s: string)
    requires s != [] && StripLeft(s) == []
    ensures CollapseSpaces(s) == " "
  {
    assert IsSpace(s[0]);
    assert CollapseSpaces(s) == " " + [];
  }

  lemma StripOneSpace()
    ensures Strip(" ") == []
  {
    var s := " ";
    assert s[1..] == [];
    assert StripLeft(s) == [];
  }

  /** Reference definition: `_clean_text(s)` equals `" ".join(s.split())`. */
  lemma CleanIsJoinedWords(s: string)
    ensures Clean(s) == Join(SplitWords(s), " ")
  {
    if s != [] {
      var t := StripLeft(s);
      if t == [] {
        CleanAllSpaces(s);
      } else {
        CleanFromWords(s, t);
      }
    }
  }

  lemma CleanFromWords(s: string, t: string)
    requires s != [] && t == StripLeft(s) && t != []
    ensures Clean(s) == Join(SplitWords(s), " ")
  {
    if IsSpace(s[0]) {
      CleanFromWordsAfterSpace(s, t);
    } else {
      assert t == s;
      CleanFromWordsNoSpace(s);
    }
  }

  lemma CleanFromWordsNoSpace(s: string)
    requires s != [] && !IsSpace(s[0])
    ensures Clean(s) == Join(SplitWords(s), " ")
  {
    var j := Join(SplitWords(s), " ");
    CollapseAsWords(s);
    JoinedWordsStripped(s, j);
    StripPadded(j, s);
    GlueClean(Clean(s), CollapseSpaces(s), j + Trailer(s), j);
  }

  lemma CleanFromWordsAfterSpace(s: string, t: string)
    requires s != [] && IsSpace(s[0]) && t == StripLeft(s) && t != []
    ensures Clean(s) == Join(SplitWords(s), " ")
  {
    var j := Join(SplitWords(t), " ");
    CollapseSpaceStart(s);
    CollapseAsWords(t);
    JoinedWordsStripped(t, j);
    StripPadded(j, t);
    GlueClean(Clean(s), CollapseSpaces(s), " " + (j + Trailer(t)), j);
  }

  /** A string starting with a non-space: its words joined are non-empty with non-space ends. */
  lemma JoinedWordsStripped(t: string, j: string)
    requires t != [] && !IsSpace(t[0]) && j == Join(SplitWords(t), " ")
    ensures j != [] && IsStripped(j)
  {
    var ws := SplitWords(t);
    SplitWordsNonEmpty(t);
    JoinWordsStripped(ws);
  }

  lemma SplitWordsNonEmpty(t: string)
    requires t != [] && !IsSpace(t[0])
    ensures SplitWords(t) != []
  {
    assert StripLeft(t) == t;
  }

  lemma GlueClean(cl: string, c: string, x: string, j: string)
    requires cl == Strip(c) && c == x && Strip(x) == j
    ensures cl == j
  {
  }

  /** `_clean_text` is idempotent. */
  lemma CleanIdempotent(s: string)
    ensures Clean(Clean(s)) == Clean(s)
  {
    CleanIsJoinedWords(s);
    CleanIsJoinedWords(Clean(s));
    SplitWordsOfJoin(SplitWords(s));
  }

  // ================================================================ line patterns

  function IndexOf(s: string, c: char): (r: Option<nat>)
    ensures r.Some? ==> r.value < |s| && s[r.value] == c && forall k :: 0 <= k < r.value ==> s[k] != c
    ensures r.None? ==> forall k :: 0 <= k < |s| ==> s[k] != c
  {
    if s == [] then None
    else if s[0] == c then Some(0)
    else match IndexOf(s[1..], c)
      case None => None
      case Some(k) => Some(k + 1)
  }

  /**
   * The tail `\s*(.+)$` of both patterns, on a line without newlines: the
   * text after the leading whitespace, or its last character when the tail is
   * whitespace only; no match when the tail is empty.
   */
  function TailGroup(rest: string): (g: Option<string>)
    ensures g.Some? <==> rest != []
  {
    var t := StripLeft(rest);
    if t != [] then Some(t)
    else if rest != [] then Some(rest[|rest| - 1..])
    else None
  }

  /** The name part `[A-Za-z][A-Za-z\s]+?` matched up to (not including) position `p`. */
  predicate IsSpeakerName(s: string) {
    |s| >= 2 && IsAsciiLetter(s[0]) && forall k :: 1 <= k < |s| ==> IsAsciiLetter(s[k]) || IsSpace(s[k])
  }

  /**
   * `re.match(r'^([A-Za-z][A-Za-z\s]+?):\s*(.+)$', line)`, giving groups 1 and 2.
   * Group 1 cannot contain ':', so the colon the pattern matches is the first one.
   */
  function MatchSpeaker(line: string): (m: Option<(string, string)>)
    ensures m.Some? ==> IsSpeakerName(m.value.0) && StartsWith(line, m.value.0 + ":")
  {
    match IndexOf(line, ':')
    case None => None
    case Some(p) =>
      if IsSpeakerName(line[..p]) && TailGroup(line[p + 1..]).Some? then
        PrefixThroughColon(line, p);
        Some((line[..p], TailGroup(line[p + 1..]).value))
      else None
  }

  lemma PrefixThroughColon(line: string, p: nat)
    requires p < |line| && line[p] == ':'
    ensures StartsWith(line, line[..p] + ":")
  {
    assert line[..p + 1] == line[..p] + ":";
  }

  /** `re.match(r'^(Meeting ID|Title):\s*(.+)$', line, re.IGNORECASE)`, giving group 2. */
  function MatchTitleLine(line: string): Option<string> {
    var low := Lower(line);
    if StartsWith(low, "meeting id:") then TailGroup(line[11..])
    else if StartsWith(low, "title:") then TailGroup(line[6..])
    else None
  }

  // ================================================================ _parse_plain_text

  /** What the title checks on the first three lines decide for a non-empty stripped line. */
  datatype TitleAction = SkipLine | SetTitle(title: string) | NotTitle

  function TitleCheck(i: nat, line: string): TitleAction {
    if i >= 3 then NotTitle
    else match MatchTitleLine(line)
      case Some(g) =>
        if Contains(Lower(line), "meeting id") then SkipLine
        else if Contains(Lower(line), "title") then SetTitle(Strip(g))
        else NotTitle
      case None =>
        if i == 0 && MatchSpeaker(line).None? && |line| < 100 then SetTitle(line) else NotTitle
  }

  /**
   * What one line is to the loop, decided from its index and its text alone:
   * every strip, pattern match and clean of the loop body happens here.
   */
  datatype LineKind =
    | Blank                                       // empty once stripped
    | MetaLine                                    // a `Meeting ID:` line among the first three: skipped
    | TitleLine(title: string)                    // a `Title:` line among the first three, or a short first line
    | SpeakerTurn(speaker: string, text: string)  // a `Speaker: text` line; the text cleaned, possibly empty
    | OtherLine(line: string, cleaned: string)    // any other line, stripped, and its cleaned form

  /** The kinds whose cleaned texts the loop may store. */
  predicate KindOk(k: LineKind) {
    && (k.SpeakerTurn? ==> IsClean(k.text))
    && (k.OtherLine? ==> IsClean(k.cleaned))
  }

  function ClassifyLine(i: nat, raw: string): (k: LineKind)
    ensures KindOk(k)
    ensures i >= 3 ==> !k.MetaLine? && !k.TitleLine?
    ensures k.SpeakerTurn? ==> MatchSpeaker(Strip(raw)).Some?
    ensures k.Blank? <==> Strip(raw) == []
  {
    var line := Strip(raw);
    if line == [] then Blank
    else match TitleCheck(i, line)
      case SkipLine => MetaLine
      case SetTitle(t) => TitleLine(t)
      case NotTitle =>
        match MatchSpeaker(line)
        case Some(g) => SpeakerTurn(Strip(g.0), Clean(Strip(g.1)))
        case None => OtherLine(line, Clean(line))
  }

  /** The loop variables of `_parse_plain_text`; a segment is a (speaker, text) pair. */
  datatype PlainState = PlainState(
    segs: seq<(string, string)>,
    speakers: set<string>,
    parts: seq<string>,
    title: Option<string>,
    hasTags: bool)

  const PlainStart := PlainState([], {}, [], None, false)

  function SpeakerLine(speaker: string, text: string): string {
    speaker + ": " + text
  }

  /**
   * One iteration of the loop: a speaker line opens a segment unless its text
   * cleans to nothing; any other line continues the last segment once one
   * exists, and is kept as a plain line before that.
   */
  function PlainStep(st: PlainState, k: LineKind): (st': PlainState)
    requires |st.parts| >= |st.segs|
    ensures |st'.parts| >= |st'.segs|
  {
    match k
    case Blank => st
    case MetaLine => st
    case TitleLine(t) => st.(title := Some(t))
    case SpeakerTurn(sp, text) =>
      if text != [] then
        PlainState(st.segs + [(sp, text)], st.speakers + {sp}, st.parts + [SpeakerLine(sp, text)], st.title, true)
      else st.(hasTags := true)
    case OtherLine(line, cleaned) =>
      if st.hasTags && st.segs != [] then
        if cleaned != [] then
          var last := st.segs[|st.segs| - 1];
          var text := last.1 + " " + cleaned;
          st.(segs := st.segs[..|st.segs| - 1] + [(last.0, text)],
              parts := st.parts[..|st.parts| - 1] + [SpeakerLine(last.0, text)])
        else st
      else st.(parts := st.parts + [line])
  }

  /** The kind of every line, by index. */
  function Classified(lines: seq<string>): (ks: seq<LineKind>)
    ensures |ks| == |lines|
  {
    seq(|lines|, k requires 0 <= k < |lines| => ClassifyLine(k, lines[k]))
  }

  lemma ClassifiedOk(lines: seq<string>)
    ensures forall k :: 0 <= k < |lines| ==> KindOk(Classified(lines)[k])
  {
  }

  /** The loop state after the first `n` lines. */
  function PlainScan(ks: seq<LineKind>, n: nat): (st: PlainState)
    requires n <= |ks|
    ensures |st.parts| >= |st.segs|
  {
    if n == 0 then PlainStart else PlainStep(PlainScan(ks, n - 1), ks[n - 1])
  }

  lemma PlainScanNext(ks: seq<LineKind>, i: nat, before: PlainState, k: LineKind, after: PlainState)
    requires i < |ks| && before == PlainScan(ks, i) && k == ks[i]
    requires |before.parts| >= |before.segs| && after == PlainStep(before, k)
    ensures after == PlainScan(ks, i + 1)
  {
  }

  function TitleField(title: Option<string>): Option<Json> {
    if title.Some? && title.value != [] then Some(JStr(title.value)) else None
  }

  function PlainSegments(segs: seq<(string, string)>): (r: seq<Segment>)
    ensures |r| == |segs|
    ensures forall k :: 0 <= k < |segs| ==> r[k] == Segment(JStr(segs[k].0), segs[k].1, None, None, None)
  {
    seq(|segs|, k requires 0 <= k < |segs| => Segment(JStr(segs[k].0), segs[k].1, None, None, None))
  }

  /** Speaker names as the string values of the result. */
  function JsonSpeakers(names: set<string>): set<Json> {
    set s | s in names :: JStr(s)
  }

  /** The dict `_parse_plain_text` returns once the loop is over. */
  function PlainResult(text: string, st: PlainState): Transcript {
    if st.hasTags && st.segs != [] then
      Transcript(SpeakerTagged, Join(st.parts, "\n"), JsonSpeakers(st.speakers),
                 PlainSegments(st.segs), TitleField(st.title), None, None)
    else
      var cleaned := Clean(text);
      Transcript(PlainText, cleaned, {}, [UnknownSegment(cleaned)], TitleField(st.title), None, None)
  }

  function PlainTextSpec(text: string): Transcript {
    var lines := Split(text, '\n');
    PlainResult(text, PlainScan(Classified(lines), |lines|))
  }

  /** The loop body for a line of kind `k`; the last segment and its line of the full text are rewritten in place. */
  method ApplyLine(st: PlainState, k: LineKind) returns (st': PlainState)
    requires |st.parts| >= |st.segs|
    ensures st' == PlainStep(st, k)
  {
    st' := st;
    match k
    case Blank =>
    case MetaLine =>
    case TitleLine(t) =>
      st' := st'.(title := Some(t));
    case SpeakerTurn(sp, text) =>
      st' := st'.(hasTags := true);
      if text != [] {
        st' := st'.(segs := st'.segs + [(sp, text)], speakers := st'.speakers + {sp},
                    parts := st'.parts + [SpeakerLine(sp, text)]);
      }
    case OtherLine(line, cleaned) =>
      if st.hasTags && st.segs != [] {
        if cleaned != [] {
          var last := st.segs[|st.segs| - 1];
          var text := last.1 + " " + cleaned;
          st' := st'.(segs := st.segs[..|st.segs| - 1] + [(last.0, text)]);
          st' := st'.(parts := st.parts[..|st.parts| - 1] + [SpeakerLine(last.0, text)]);
        }
      } else {
        st' := st'.(parts := st.parts + [line]);
      }
  }

  /** The loop body for line number `i`. */
  method ScanLine(lines: seq<string>, i: nat, st: PlainState) returns (st': PlainState)
    requires i < |lines| && st == PlainScan(Classified(lines), i)
    ensures st' == PlainScan(Classified(lines), i + 1)
  {
    var k := ClassifyLine(i, lines[i]);
    st' := ApplyLine(st, k);
    PlainScanNext(Classified(lines), i, st, k, st');
  }

  /** The line loop over all of `lines`. */
  method ScanLines(lines: seq<string>) returns (st: PlainState)
    ensures st == PlainScan(Classified(lines), |lines|)
  {
    st := PlainStart;
    var i := 0;
    while i < |lines|
      invariant 0 <= i <= |lines|
      invariant st == PlainScan(Classified(lines), i)
    {
      st := ScanLine(lines, i, st);
      i := i + 1;
    }
  }

  /** `_parse_plain_text`: the line loop over `text.split('\n')`, then the result dict. */
  method ParsePlainText(text: string) returns (r: Transcript)
    ensures r == PlainTextSpec(text)
  {
    var lines := Split(text, '\n');
    var st := ScanLines(lines);
    r := PlainResult(text, st);
  }

  // ---------------------------------------------------------------- properties of the line loop

  /** The speakers of a list of (speaker, text) segments. */
  function SpeakersOf(segs: seq<(string, string)>): set<string> {
    set k | 0 <= k < |segs| :: segs[k].0
  }

  /**
   * What the loop keeps true: segment texts are non-empty and clean; the
   * speaker set is the set of segment speakers; the full text ends with the
   * `speaker: text` line of each segment, in order; a segment exists only
   * once a speaker line was seen.
   */
  predicate PlainInv(st: PlainState) {
    && (forall k :: 0 <= k < |st.segs| ==> st.segs[k].1 != [] && IsClean(st.segs[k].1))
    && st.speakers == SpeakersOf(st.segs)
    && |st.parts| >= |st.segs|
    && (forall k :: 0 <= k < |st.segs| ==>
          st.parts[|st.parts| - |st.segs| + k] == SpeakerLine(st.segs[k].0, st.segs[k].1))
    && (st.segs != [] ==> st.hasTags)
  }

  lemma CleanJoinedBySpace(a: string, b: string)
    requires a != [] && b != [] && IsClean(a) && IsClean(b)
    ensures IsClean(a + " " + b)
  {
    var u := a + " " + b;
    forall i | 0 <= i < |u| && IsSpace(u[i])
      ensures u[i] == ' ' && (i + 1 < |u| ==> !IsSpace(u[i + 1]))
    {
      if i < |a| {
        assert u[i] == a[i];
        if i + 1 < |a| { assert u[i + 1] == a[i + 1]; }
      } else if i > |a| {
        assert u[i] == b[i - |a| - 1];
        if i + 1 < |u| { assert u[i + 1] == b[i - |a|]; }
      } else {
        assert u[i + 1] == b[0];
      }
    }
    assert u[0] == a[0] && u[|u| - 1] == b[|b| - 1];
  }

  lemma SpeakersOfAppend(segs: seq<(string, string)>, x: (string, string))
    ensures SpeakersOf(segs + [x]) == SpeakersOf(segs) + {x.0}
  {
    var u := segs + [x];
    forall sp | sp in SpeakersOf(u) ensures sp in SpeakersOf(segs) + {x.0} {
      var k :| 0 <= k < |u| && u[k].0 == sp;
      if k < |segs| { assert segs[k] == u[k]; }
    }
    forall sp | sp in SpeakersOf(segs) + {x.0} ensures sp in SpeakersOf(u) {
      if sp == x.0 {
        assert u[|segs|].0 == sp;
      } else {
        var k :| 0 <= k < |segs| && segs[k].0 == sp;
        assert u[k] == segs[k];
      }
    }
  }

  lemma SpeakersOfReplaceLast(segs: seq<(string, string)>, text: string)
    requires segs != []
    ensures SpeakersOf(segs[..|segs| - 1] + [(segs[|segs| - 1].0, text)]) == SpeakersOf(segs)
  {
    var n := |segs|;
    SpeakersOfAppend(segs[..n - 1], (segs[n - 1].0, text));
    SpeakersOfAppend(segs[..n - 1], segs[n - 1]);
    assert segs[..n - 1] + [segs[n - 1]] == segs;
  }

  lemma SpeakerTurnInv(st: PlainState, sp: string, text: string)
    requires PlainInv(st) && IsClean(text)
    ensures PlainInv(PlainStep(st, SpeakerTurn(sp, text)))
  {
    if text != [] {
      SpeakersOfAppend(st.segs, (sp, text));
    }
  }

  lemma OtherLineInv(st: PlainState, line: string, cleaned: string)
    requires PlainInv(st) && IsClean(cleaned)
    ensures PlainInv(PlainStep(st, OtherLine(line, cleaned)))
  {
    if st.hasTags && st.segs != [] && cleaned != [] {
      var n := |st.segs|;
      var last := st.segs[n - 1];
      CleanJoinedBySpace(last.1, cleaned);
      SpeakersOfReplaceLast(st.segs, last.1 + " " + cleaned);
    }
  }

  lemma PlainStepInv(st: PlainState, k: LineKind)
    requires PlainInv(st) && KindOk(k)
    ensures PlainInv(PlainStep(st, k))
  {
    match k
    case SpeakerTurn(sp, text) => SpeakerTurnInv(st, sp, text);
    case OtherLine(line, cleaned) => OtherLineInv(st, line, cleaned);
    case _ =>
  }

  lemma {:induction false} PlainScanInv(ks: seq<LineKind>, n: nat)
    requires n <= |ks|
    requires forall k :: 0 <= k < |ks| ==> KindOk(ks[k])
    ensures PlainInv(PlainScan(ks, n))
  {
    if n > 0 {
      PlainScanInv(ks, n - 1);
      PlainStepInv(PlainScan(ks, n - 1), ks[n - 1]);
    }
  }

  /** Speaker tags are detected only from a speaker line. */
  lemma {:induction false} PlainScanTagsNeedSpeakerTurn(ks: seq<LineKind>, n: nat)
    requires n <= |ks|
    requires forall k :: 0 <= k < n ==> !ks[k].SpeakerTurn?
    ensures !PlainScan(ks, n).hasTags && PlainScan(ks, n).segs == []
  {
    if n > 0 {
      PlainScanTagsNeedSpeakerTurn(ks, n - 1);
    }
  }

  /** Only title lines touch the title: after the first three lines it is fixed. */
  lemma {:induction false} PlainScanTitleFixed(ks: seq<LineKind>, m: nat, n: nat)
    requires m <= n <= |ks|
    requires forall k :: m <= k < n ==> !ks[k].TitleLine?
    ensures PlainScan(ks, n).title == PlainScan(ks, m).title
  {
    if n > m {
      PlainScanTitleFixed(ks, m, n - 1);
    }
  }

  /** A title, once found, comes from a title line: the last one seen. */
  lemma {:induction false} PlainScanTitleFromLine(ks: seq<LineKind>, n: nat)
    requires n <= |ks|
    ensures PlainScan(ks, n).title.Some? ==>
      exists k :: 0 <= k < n && ks[k] == TitleLine(PlainScan(ks, n).title.value)
  {
    if n > 0 {
      PlainScanTitleFromLine(ks, n - 1);
    }
  }

  /** Over classified lines where only the first three can be title lines, the title comes from them. */
  lemma PlainScanTitleFirstThree(ks: seq<LineKind>, n: nat)
    requires n == (if |ks| < 3 then |ks| else 3)
    requires forall k :: n <= k < |ks| ==> !ks[k].TitleLine?
    ensures PlainScan(ks, |ks|).title == PlainScan(ks, n).title
    ensures PlainScan(ks, n).title.Some? ==> exists k :: 0 <= k < n && ks[k] == TitleLine(PlainScan(ks, n).title.value)
  {
    PlainScanTitleFixed(ks, n, |ks|);
    PlainScanTitleFromLine(ks, n);
  }

  /** The title is decided by the first three lines only, and always by one of them. */
  lemma PlainTitleFromFirstLines(text: string)
    ensures var lines := Split(text, '\n');
      var ks := Classified(lines);
      var n := if |lines| < 3 then |lines| else 3;
      && PlainTextSpec(text).title == TitleField(PlainScan(ks, n).title)
      && (PlainScan(ks, n).title.Some? ==>
            exists k :: 0 <= k < n && ks[k] == TitleLine(PlainScan(ks, n).title.value))
  {
    var lines := Split(text, '\n');
    var ks := Classified(lines);
    var n := if |lines| < 3 then |lines| else 3;
    ClassifiedTitlesFirstThree(lines);
    PlainScanTitleFirstThree(ks, n);
  }

  lemma ClassifiedTitlesFirstThree(lines: seq<string>)
    ensures forall k :: 3 <= k < |lines| ==> !Classified(lines)[k].TitleLine?
  {
    forall k | 3 <= k < |lines| ensures !Classified(lines)[k].TitleLine? {
      assert Classified(lines)[k] == ClassifyLine(k, lines[k]);
    }
  }

  /** With no speaker line, the result is plain text: the whole input cleaned, as one segment of speaker Unknown. */
  lemma PlainTextWithoutSpeakers(text: string)
    requires forall k :: 0 <= k < |Split(text, '\n')| ==> MatchSpeaker(Strip(Split(text, '\n')[k])).None?
    ensures var r := PlainTextSpec(text);
      && r.format == PlainText && r.text == Clean(text) && r.speakers == {}
      && r.segments == [UnknownSegment(Clean(text))]
  {
    var lines := Split(text, '\n');
    var ks := Classified(lines);
    forall k | 0 <= k < |lines| ensures !ks[k].SpeakerTurn? {
      assert ks[k] == ClassifyLine(k, lines[k]);
    }
    PlainScanTagsNeedSpeakerTurn(ks, |lines|);
  }

  /** The full text splits into the plain lines before the first segment and one line per segment. */
  lemma PartsSplit(parts: seq<string>, segs: seq<(string, string)>)
    requires |parts| >= |segs|
    requires forall k :: 0 <= k < |segs| ==> parts[|parts| - |segs| + k] == SpeakerLine(segs[k].0, segs[k].1)
    ensures parts == parts[..|parts| - |segs|] + SpeakerLines(segs)
  {
  }

  /** The `speaker: text` line of every segment, in order. */
  function SpeakerLines(segs: seq<(string, string)>): (r: seq<string>)
    ensures |r| == |segs|
    ensures forall k :: 0 <= k < |segs| ==> r[k] == SpeakerLine(segs[k].0, segs[k].1)
  {
    seq(|segs|, k requires 0 <= k < |segs| => SpeakerLine(segs[k].0, segs[k].1))
  }

  /**
   * A speaker-tagged result has at least one segment; every segment text is
   * non-empty and clean; the speakers are exactly the segment speakers; the
   * full text is some plain lines seen before the first speaker line
   * followed by the `speaker: text` line of every segment, joined by newlines.
   */
  lemma PlainTextTagged(text: string)
    ensures var r := PlainTextSpec(text);
      r.format == SpeakerTagged ==>
        && r.segments != []
        && (forall k :: 0 <= k < |r.segments| ==> r.segments[k].text != [] && IsClean(r.segments[k].text))
        && (forall sp :: sp in r.speakers <==> exists k :: 0 <= k < |r.segments| && r.segments[k].speaker == sp)
        && exists pre: seq<string> :: r.text == Join(pre + SpeakerLines(PlainScan(Classified(Split(text, '\n')), |Split(text, '\n')|).segs), "\n")
  {
    var lines := Split(text, '\n');
    var ks := Classified(lines);
    var st := PlainScan(ks, |lines|);
    ClassifiedOk(lines);
    PlainScanInv(ks, |lines|);
    var r := PlainTextSpec(text);
    if r.format == SpeakerTagged {
      PlainTaggedResult(text, st);
    }
  }

  lemma PlainTaggedResult(text: string, st: PlainState)
    requires PlainInv(st) && st.hasTags && st.segs != []
    ensures var r := PlainResult(text, st);
        && r.segments != []
        && (forall k :: 0 <= k < |r.segments| ==> r.segments[k].text != [] && IsClean(r.segments[k].text))
        && (forall sp :: sp in r.speakers <==> exists k :: 0 <= k < |r.segments| && r.segments[k].speaker == sp)
        && r.text == Join(st.parts[..|st.parts| - |st.segs|] + SpeakerLines(st.segs), "\n")
  {
    PartsSplit(st.parts, st.segs);
    PlainSpeakersOfSegments(st);
  }

  lemma PlainSpeakersOfSegments(st: PlainState)
    requires st.speakers == SpeakersOf(st.segs)
    ensures var segments := PlainSegments(st.segs);
      forall sp :: sp in JsonSpeakers(st.speakers) <==>
        exists k :: 0 <= k < |segments| && segments[k].speaker == sp
  {
    var segments := PlainSegments(st.segs);
    forall sp ensures sp in JsonSpeakers(st.speakers) <==>
        exists k :: 0 <= k < |segments| && segments[k].speaker == sp
    {
      if sp in JsonSpeakers(st.speakers) {
        var s :| s in st.speakers && sp == JStr(s);
        var k :| 0 <= k < |st.segs| && st.segs[k].0 == s;
        assert segments[k].speaker == sp;
      }
      if exists k :: 0 <= k < |segments| && segments[k].speaker == sp {
        var k :| 0 <= k < |segments| && segments[k].speaker == sp;
        assert st.segs[k].0 in st.speakers;
      }
    }
  }

  // ================================================================ _parse_speaker_tagged

  /** Python `a or b` on JSON values. */
  function Or(a: Json, b: Json): (r: Json)
    ensures Truthy(a) ==> r == a
    ensures !Truthy(a) ==> r == b
  {
    if Truthy(a) then a else b
  }

  /**
   * `_clean_text` applied to a value that need not be a string: a falsy value
   * gives "", a string is cleaned, and any other truthy value makes `re.sub`
   * raise `TypeError`.
   */
  function CleanValue(v: Json): (r: Result<string>)
    ensures r.Ok? ==> IsClean(r.value)
    ensures r.Err? <==> Truthy(v) && !v.JStr?
    ensures v.JStr? ==> r == Ok(Clean(v.s))
  {
    if !Truthy(v) then Ok("")
    else if v.JStr? then Ok(Clean(v.s))
    else Err("TypeError: expected string or bytes-like object")
  }

  /** An optional segment field: present only when its value is truthy. */
  function KeepIfTruthy(v: Json): (r: Option<Json>)
    ensures r.Some? <==> Truthy(v)
    ensures r.Some? ==> r.value == v
  {
    if Truthy(v) then Some(v) else None
  }

  /**
   * What one item of the segments list contributes: `None` when its cleaned
   * text is empty, the segment otherwise, or the exception the loop body
   * raises (a truthy non-string text; an unhashable speaker added to the
   * speaker set).
   */
  function SegmentOf(item: Json, render: Json -> string): (r: Result<Option<Segment>>)
    ensures r.Ok? && r.value.Some? ==>
      r.value.value.text != [] && IsClean(r.value.value.text) && Hashable(r.value.value.speaker)
    ensures item.JObj? && r.Ok? && r.value.Some? ==>
      var d := item.fields; var seg := r.value.value;
      && seg.speaker == Get(d, "speaker", Get(d, "name", JStr("Unknown")))
      && (seg.timestamp.Some? <==> Truthy(Get(d, "timestamp", JNull)) || Truthy(Get(d, "time", JNull)))
      && (seg.startTime.Some? <==> Truthy(Get(d, "start", JNull)))
      && (seg.endTime.Some? <==> Truthy(Get(d, "end", JNull)))
    ensures !item.JObj? ==> r.Ok? && (r.value.Some? ==> r.value.value == UnknownSegment(Clean(Str(item, render))))
  {
    var speaker := if item.JObj? then Get(item.fields, "speaker", Get(item.fields, "name", JStr("Unknown"))) else JStr("Unknown");
    var text := if item.JObj? then Get(item.fields, "text", Get(item.fields, "content", JStr(""))) else JStr(Str(item, render));
    var timestamp := if item.JObj? then Or(Get(item.fields, "timestamp", JNull), Get(item.fields, "time", JNull)) else JNull;
    var start := if item.JObj? then Get(item.fields, "start", JNull) else JNull;
    var end := if item.JObj? then Get(item.fields, "end", JNull) else JNull;
    match CleanValue(text)
    case Err(e) => Err(e)
    case Ok(cleaned) =>
      if cleaned == [] then Ok(None)
      else if !Hashable(speaker) then Err("TypeError: unhashable type")
      else Ok(Some(Segment(speaker, cleaned, KeepIfTruthy(timestamp), KeepIfTruthy(start), KeepIfTruthy(end))))
  }

  /** The loop variables of `_parse_speaker_tagged`. */
  datatype TaggedState = TaggedState(segs: seq<Segment>, speakers: set<Json>, parts: seq<string>)

  const TaggedStart := TaggedState([], {}, [])

  /** The `speaker: text` line of a kept segment. */
  function TaggedLine(seg: Segment, render: Json -> string): string {
    SpeakerLine(Str(seg.speaker, render), seg.text)
  }

  /** One iteration of the segment loop, given what the item contributes. */
  function TaggedStep(st: TaggedState, o: Result<Option<Segment>>, render: Json -> string): Result<TaggedState> {
    match o
    case Err(e) => Err(e)
    case Ok(None) => Ok(st)
    case Ok(Some(seg)) => Ok(TaggedState(st.segs + [seg], st.speakers + {seg.speaker}, st.parts + [TaggedLine(seg, render)]))
  }

  /** What every item contributes, by index. */
  function Outcomes(items: seq<Json>, render: Json -> string): (os: seq<Result<Option<Segment>>>)
    ensures |os| == |items|
  {
    seq(|items|, k requires 0 <= k < |items| => SegmentOf(items[k], render))
  }

  /** The loop state after the first `n` outcomes; the first exception ends the loop. */
  function TaggedScan(os: seq<Result<Option<Segment>>>, n: nat, render: Json -> string): Result<TaggedState>
    requires n <= |os|
  {
    if n == 0 then Ok(TaggedStart)
    else match TaggedScan(os, n - 1, render)
      case Err(e) => Err(e)
      case Ok(st) => TaggedStep(st, os[n - 1], render)
  }

  /** Where the segments come from: `segments`, else `transcript`, else the dict itself. */
  function SegmentsSource(data: map<string, Json>): (v: Json)
    ensures "segments" in data ==> v == data["segments"]
    ensures "segments" !in data && "transcript" in data ==> v == data["transcript"]
    ensures "segments" !in data && "transcript" !in data ==> v == JObj(data)
  {
    if "segments" in data then data["segments"]
    else if "transcript" in data then data["transcript"]
    else JObj(data)
  }

  /** The result dict: metadata keys appear only with truthy values. */
  function TaggedResult(data: map<string, Json>, segs: seq<Segment>, speakers: set<Json>, parts: seq<string>): Transcript {
    Transcript(SpeakerTagged, Join(parts, "\n"), speakers, segs,
               KeepIfTruthy(Get(data, "title", JNull)),
               KeepIfTruthy(Get(data, "meeting_id", JNull)),
               KeepIfTruthy(Get(data, "language_hint", JStr("auto"))))
  }

  /** The early return for an empty segments list: every metadata key present, whatever its value. */
  function EmptyTaggedResult(data: map<string, Json>): Transcript {
    Transcript(SpeakerTagged, "", {}, [],
               Some(Get(data, "title", JNull)),
               Some(Get(data, "meeting_id", JNull)),
               Some(Get(data, "language_hint", JStr("auto"))))
  }

  function SpeakerTaggedSpec(data: map<string, Json>, render: Json -> string): Result<Transcript> {
    var source := SegmentsSource(data);
    if source.JArr? then
      if source.items == [] then Ok(EmptyTaggedResult(data))
      else match TaggedScan(Outcomes(source.items, render), |source.items|, render)
        case Err(e) => Err(e)
        case Ok(st) => Ok(TaggedResult(data, st.segs, st.speakers, st.parts))
    else
      var text := Clean(Str(source, render));
      Ok(TaggedResult(data, [UnknownSegment(text)], {}, [text]))
  }

  lemma TaggedScanNext(os: seq<Result<Option<Segment>>>, i: nat, render: Json -> string, st: TaggedState)
    requires i < |os| && TaggedScan(os, i, render) == Ok(st)
    ensures TaggedScan(os, i + 1, render) == TaggedStep(st, os[i], render)
  {
  }

  /** The loop body for one item: the segment, its speaker and its line are appended in place. */
  method AddSegment(st: TaggedState, item: Json, render: Json -> string) returns (r: Result<TaggedState>)
    ensures r == TaggedStep(st, SegmentOf(item, render), render)
  {
    var seg := SegmentOf(item, render);
    if seg.Err? {
      return Err(seg.error);
    }
    var st' := st;
    if seg.value.Some? {
      var s := seg.value.value;
      st' := st'.(segs := st'.segs + [s]);
      st' := st'.(speakers := st'.speakers + {s.speaker});
      st' := st'.(parts := st'.parts + [TaggedLine(s, render)]);
    }
    return Ok(st');
  }

  /** What each item contributes, as the comprehension states it pointwise. */
  lemma OutcomesAt(items: seq<Json>, render: Json -> string)
    ensures forall k :: 0 <= k < |items| ==> Outcomes(items, render)[k] == SegmentOf(items[k], render)
  {
  }

  /** The segment loop; the first exception ends it. `os` is what each item contributes. */
  method ScanSegments(items: seq<Json>, render: Json -> string, ghost os: seq<Result<Option<Segment>>>)
      returns (r: Result<TaggedState>)
    requires |os| == |items| && forall k :: 0 <= k < |items| ==> os[k] == SegmentOf(items[k], render)
    ensures r == TaggedScan(os, |os|, render)
  {
    r := Ok(TaggedStart);
    var i := 0;
    while i < |items| && r.Ok?
      invariant 0 <= i <= |items|
      invariant r == TaggedScan(os, i, render)
    {
      TaggedScanNext(os, i, render, r.value);
      r := AddSegment(r.value, items[i], render);
      i := i + 1;
    }
    TaggedScanDone(os, i, render);
  }

  /** `_parse_speaker_tagged`. */
  method ParseSpeakerTagged(data: map<string, Json>, render: Json -> string) returns (r: Result<Transcript>)
    ensures r == SpeakerTaggedSpec(data, render)
  {
    var source := SegmentsSource(data);
    if source.JArr? {
      if |source.items| == 0 {
        return Ok(EmptyTaggedResult(data));
      }
      OutcomesAt(source.items, render);
      var scanned := ScanSegments(source.items, render, Outcomes(source.items, render));
      if scanned.Err? {
        return Err(scanned.error);
      }
      var st := scanned.value;
      return Ok(TaggedResult(data, st.segs, st.speakers, st.parts));
    }
    var text := Clean(Str(source, render));
    return Ok(TaggedResult(data, [UnknownSegment(text)], {}, [text]));
  }

  // ---------------------------------------------------------------- properties of the segment loop

  /** Once an item raised, the scan stays failed. */
  lemma {:induction false} TaggedScanErrSticky(os: seq<Result<Option<Segment>>>, m: nat, n: nat, render: Json -> string)
    requires m <= n <= |os| && TaggedScan(os, m, render).Err?
    ensures TaggedScan(os, n, render) == TaggedScan(os, m, render)
  {
    if n > m {
      TaggedScanErrSticky(os, m, n - 1, render);
    }
  }

  /** The loop stops at the end of the list or at the first exception; either way its result is the whole scan's. */
  lemma TaggedScanDone(os: seq<Result<Option<Segment>>>, i: nat, render: Json -> string)
    requires i <= |os| && (i == |os| || TaggedScan(os, i, render).Err?)
    ensures TaggedScan(os, i, render) == TaggedScan(os, |os|, render)
  {
    if i < |os| {
      TaggedScanErrSticky(os, i, |os|, render);
    }
  }

  /** The scan fails exactly when one of the items raises. */
  lemma {:induction false} TaggedScanErr(os: seq<Result<Option<Segment>>>, n: nat, render: Json -> string)
    requires n <= |os|
    ensures TaggedScan(os, n, render).Err? <==> exists k :: 0 <= k < n && os[k].Err?
  {
    if n > 0 {
      TaggedScanErr(os, n - 1, render);
    }
  }

  function TaggedLines(segs: seq<Segment>, render: Json -> string): (r: seq<string>)
    ensures |r| == |segs|
    ensures forall k :: 0 <= k < |segs| ==> r[k] == TaggedLine(segs[k], render)
  {
    seq(|segs|, k requires 0 <= k < |segs| => TaggedLine(segs[k], render))
  }

  function SegmentSpeakers(segs: seq<Segment>): set<Json> {
    set k | 0 <= k < |segs| :: segs[k].speaker
  }

  /**
   * What the segment loop keeps true: every kept text is non-empty and clean,
   * the speaker set is the set of kept speakers, and the full text has one
   * `speaker: text` line per kept segment, in order.
   */
  predicate TaggedInv(st: TaggedState, render: Json -> string) {
    && (forall k :: 0 <= k < |st.segs| ==> st.segs[k].text != [] && IsClean(st.segs[k].text))
    && st.speakers == SegmentSpeakers(st.segs)
    && st.parts == TaggedLines(st.segs, render)
  }

  lemma SegmentSpeakersAppend(segs: seq<Segment>, x: Segment)
    ensures SegmentSpeakers(segs + [x]) == SegmentSpeakers(segs) + {x.speaker}
  {
    var u := segs + [x];
    forall sp | sp in SegmentSpeakers(u) ensures sp in SegmentSpeakers(segs) + {x.speaker} {
      var k :| 0 <= k < |u| && u[k].speaker == sp;
      if k < |segs| { assert segs[k] == u[k]; }
    }
    forall sp | sp in SegmentSpeakers(segs) + {x.speaker} ensures sp in SegmentSpeakers(u) {
      if sp == x.speaker {
        assert u[|segs|].speaker == sp;
      } else {
        var k :| 0 <= k < |segs| && segs[k].speaker == sp;
        assert u[k] == segs[k];
      }
    }
  }

  lemma TaggedLinesAppend(segs: seq<Segment>, x: Segment, render: Json -> string)
    ensures TaggedLines(segs + [x], render) == TaggedLines(segs, render) + [TaggedLine(x, render)]
  {
  }

  /** The outcomes the loop may store: a kept segment has a non-empty clean text. */
  predicate OutcomeOk(o: Result<Option<Segment>>) {
    o.Ok? && o.value.Some? ==> o.value.value.text != [] && IsClean(o.value.value.text)
  }

  lemma OutcomesOk(items: seq<Json>, render: Json -> string)
    ensures forall k :: 0 <= k < |items| ==> OutcomeOk(Outcomes(items, render)[k])
  {
  }

  lemma TaggedStepInv(st: TaggedState, o: Result<Option<Segment>>, render: Json -> string)
    requires TaggedInv(st, render) && OutcomeOk(o) && TaggedStep(st, o, render).Ok?
    ensures TaggedInv(TaggedStep(st, o, render).value, render)
  {
    if o.value.Some? {
      SegmentSpeakersAppend(st.segs, o.value.value);
      TaggedLinesAppend(st.segs, o.value.value, render);
    }
  }

  /**
   * The loop keeps its invariant and keeps, in order, exactly the segments
   * of the items whose text did not clean to nothing.
   */
  lemma {:induction false} TaggedScanInv(os: seq<Result<Option<Segment>>>, n: nat, render: Json -> string)
    requires n <= |os| && TaggedScan(os, n, render).Ok?
    requires forall k :: 0 <= k < |os| ==> OutcomeOk(os[k])
    ensures TaggedInv(TaggedScan(os, n, render).value, render)
    ensures TaggedScan(os, n, render).value.segs == KeptSegments(os[..n])
  {
    if n > 0 {
      TaggedScanInv(os, n - 1, render);
      TaggedStepInv(TaggedScan(os, n - 1, render).value, os[n - 1], render);
      assert os[..n] == os[..n - 1] + [os[n - 1]];
      KeptSegmentsAppend(os[..n - 1], os[n - 1]);
    }
  }

  /** The kept segments of a run of outcomes that raised nothing, in order. */
  function KeptSegments(os: seq<Result<Option<Segment>>>): (r: seq<Segment>)
    ensures |r| <= |os|
  {
    if os == [] then []
    else
      var o := os[0];
      (if o.Ok? && o.value.Some? then [o.value.value] else []) + KeptSegments(os[1..])
  }

  lemma {:induction false} KeptSegmentsAppend(os: seq<Result<Option<Segment>>>, o: Result<Option<Segment>>)
    ensures KeptSegments(os + [o]) == KeptSegments(os) + (if o.Ok? && o.value.Some? then [o.value.value] else [])
  {
    if os == [] {
      assert [o][1..] == [];
    } else {
      assert (os + [o])[1..] == os[1..] + [o];
      KeptSegmentsAppend(os[1..], o);
    }
  }

  /** The scan of a whole list: it fails exactly when an item raises; otherwise its state satisfies the invariant over the kept segments. */
  lemma TaggedScanAll(os: seq<Result<Option<Segment>>>, render: Json -> string)
    requires forall k :: 0 <= k < |os| ==> OutcomeOk(os[k])
    ensures TaggedScan(os, |os|, render).Err? <==> exists k :: 0 <= k < |os| && os[k].Err?
    ensures TaggedScan(os, |os|, render).Ok? ==>
      var st := TaggedScan(os, |os|, render).value;
      TaggedInv(st, render) && st.segs == KeptSegments(os)
  {
    TaggedScanErr(os, |os|, render);
    if TaggedScan(os, |os|, render).Ok? {
      TaggedScanInv(os, |os|, render);
      assert os[..|os|] == os;
    }
  }

  /**
   * A list of segments gives a speaker-tagged result whose segments are the
   * kept ones in order, whose text is their `speaker: text` lines joined by
   * newlines, whose speakers are exactly the kept speakers, and whose segment
   * texts are non-empty and clean; or the exception of the first failing item.
   */
  lemma SpeakerTaggedList(data: map<string, Json>, render: Json -> string)
    requires SegmentsSource(data).JArr? && SegmentsSource(data).items != []
    ensures var os := Outcomes(SegmentsSource(data).items, render);
      var r := SpeakerTaggedSpec(data, render);
      && (r.Err? <==> exists k :: 0 <= k < |os| && os[k].Err?)
      && (r.Ok? ==>
            && r.value.format == SpeakerTagged
            && r.value.segments == KeptSegments(os)
            && r.value.text == Join(TaggedLines(r.value.segments, render), "\n")
            && r.value.speakers == SegmentSpeakers(r.value.segments)
            && (forall k :: 0 <= k < |r.value.segments| ==>
                  r.value.segments[k].text != [] && IsClean(r.value.segments[k].text)))
  {
    var items := SegmentsSource(data).items;
    OutcomesOk(items, render);
    TaggedScanAll(Outcomes(items, render), render);
  }

  /** An empty segments list is no error: empty text, segments and speakers, all metadata keys present. */
  lemma SpeakerTaggedEmptyList(data: map<string, Json>, render: Json -> string)
    requires "segments" in data && data["segments"] == JArr([])
    ensures var r := SpeakerTaggedSpec(data, render);
      && r.Ok? && r.value.text == [] && r.value.segments == [] && r.value.speakers == {}
      && r.value.languageHint == Some(Get(data, "language_hint", JStr("auto")))
      && r.value.title.Some? && r.value.meetingId.Some?
  {
  }

  // ================================================================ _parse_dict and parse

  /** Whether `_parse_dict` hands the dict to `_parse_speaker_tagged`. */
  predicate IsTaggedDict(data: map<string, Json>) {
    ("segments" in data && data["segments"].JArr?) || "speakers" in data || "transcript" in data
  }

  /** `_parse_dict`: a speaker-tagged dict, or text stored in a dict. */
  function DictSpec(data: map<string, Json>, render: Json -> string): Result<Transcript> {
    if IsTaggedDict(data) then SpeakerTaggedSpec(data, render)
    else
      var text := Clean(Str(Get(data, "text", Get(data, "content", JStr(""))), render));
      Ok(Transcript(JsonFormat, text, {}, [UnknownSegment(text)], Some(JNull), Some(JNull), None))
  }

  method ParseDict(data: map<string, Json>, render: Json -> string) returns (r: Result<Transcript>)
    ensures r == DictSpec(data, render)
  {
    if IsTaggedDict(data) {
      r := ParseSpeakerTagged(data, render);
    } else {
      var text := Clean(Str(Get(data, "text", Get(data, "content", JStr(""))), render));
      r := Ok(Transcript(JsonFormat, text, {}, [UnknownSegment(text)], Some(JNull), Some(JNull), None));
    }
  }

  /**
   * `parse`: a dict is parsed as a dict; a string is decoded as JSON first
   * (`decode` is `json.loads`, `None` when it raises `JSONDecodeError`) and is
   * plain text when it does not decode. A decoded value other than a dict
   * makes `_parse_dict` raise (`in` on a number, `.get` on a list or string).
   */
  function ParseSpec(raw: RawTranscript, decode: string -> Option<Json>, render: Json -> string): Result<Transcript> {
    match raw
    case RawOther => Err("ValueError: Unsupported transcript type")
    case RawDict(d) => DictSpec(d, render)
    case RawText(s) =>
      match decode(s)
      case None => Ok(PlainTextSpec(s))
      case Some(v) =>
        if v.JObj? then DictSpec(v.fields, render)
        else Err("AttributeError: decoded JSON is not a dict")
  }

  method Parse(raw: RawTranscript, decode: string -> Option<Json>, render: Json -> string) returns (r: Result<Transcript>)
    ensures r == ParseSpec(raw, decode, render)
  {
    match raw
    case RawDict(d) =>
      r := ParseDict(d, render);
    case RawText(s) =>
      var data := decode(s);
      if data.None? {
        var t := ParsePlainText(s);
        r := Ok(t);
      } else if data.value.JObj? {
        r := ParseDict(data.value.fields, render);
      } else {
        r := Err("AttributeError: decoded JSON is not a dict");
      }
    case RawOther =>
      r := Err("ValueError: Unsupported transcript type");
  }

  // ---------------------------------------------------------------- accessors

  // `get_full_text`, `get_speakers` and `get_segments` read keys every
  // result of `parse` holds, so they are the fields `text`, `speakers` and
  // `segments` of a `Transcript`.

  /** `parsed.get("meeting_id")`: None when the key is absent. */
  function GetMeetingId(t: Transcript): (r: Json)
    ensures t.meetingId.None? ==> r == JNull
    ensures t.meetingId.Some? ==> r == t.meetingId.value
  {
    if t.meetingId.Some? then t.meetingId.value else JNull
  }

  /** `parsed.get("title")`: None when the key is absent. */
  function GetTitle(t: Transcript): (r: Json)
    ensures t.title.None? ==> r == JNull
    ensures t.title.Some? ==> r == t.title.value
  {
    if t.title.Some? then t.title.value else JNull
  }

  /** `parsed.get("language_hint", "auto")`. */
  function GetLanguageHint(t: Transcript): (r: Json)
    ensures t.languageHint.None? ==> r == JStr("auto")
    ensures t.languageHint.Some? ==> r == t.languageHint.value
  {
    if t.languageHint.Some? then t.languageHint.value else JStr("auto")
  }

  // ---------------------------------------------------------------- properties of parse

  /** A dict without a segments list, `speakers` or `transcript` is text stored in a dict. */
  lemma DictWithoutSegments(data: map<string, Json>, render: Json -> string)
    requires !IsTaggedDict(data)
    ensures var r := DictSpec(data, render);
      && r.Ok? && r.value.format == JsonFormat && r.value.speakers == {}
      && |r.value.segments| == 1 && r.value.segments[0].speaker == JStr("Unknown")
      && r.value.text == r.value.segments[0].text && IsClean(r.value.text)
      && ("text" in data ==> r.value.text == Clean(Str(data["text"], render)))
      && ("text" !in data && "content" in data ==> r.value.text == Clean(Str(data["content"], render)))
      && ("text" !in data && "content" !in data ==> r.value.text == [])
      && GetMeetingId(r.value) == JNull && GetTitle(r.value) == JNull
      && GetLanguageHint(r.value) == JStr("auto")
  {
  }

  /** Every result `parse` returns has clean segment texts and speakers drawn from its segments. */
  predicate WellFormed(t: Transcript) {
    && (forall k :: 0 <= k < |t.segments| ==> IsClean(t.segments[k].text))
    && (forall sp :: sp in t.speakers ==> exists k :: 0 <= k < |t.segments| && t.segments[k].speaker == sp)
  }

  lemma PlainTextWellFormed(text: string)
    ensures WellFormed(PlainTextSpec(text))
  {
    var st := PlainScan(Classified(Split(text, '\n')), |Split(text, '\n')|);
    if st.hasTags && st.segs != [] {
      PlainTextTagged(text);
    }
  }

  lemma SpeakerTaggedWellFormed(data: map<string, Json>, render: Json -> string)
    ensures SpeakerTaggedSpec(data, render).Ok? ==> WellFormed(SpeakerTaggedSpec(data, render).value)
  {
    var source := SegmentsSource(data);
    if source.JArr? && source.items != [] {
      SpeakerTaggedList(data, render);
    }
  }

  /**
   * What `parse` guarantees: it fails only on an unsupported input type, a
   * decoded value that is not a dict, or a segment item that raises; plain
   * text never fails; and every result is well formed.
   */
  lemma ParseOutcome(raw: RawTranscript, decode: string -> Option<Json>, render: Json -> string)
    ensures var r := ParseSpec(raw, decode, render);
      && (raw.RawOther? ==> r.Err?)
      && (raw.RawText? && decode(raw.s).None? ==> r == Ok(PlainTextSpec(raw.s)))
      && (raw.RawText? && decode(raw.s).Some? && !decode(raw.s).value.JObj? ==> r.Err?)
      && (r.Err? && raw.RawDict? ==>
            exists k :: 0 <= k < |SegmentsSource(raw.fields).items| &&
              Outcomes(SegmentsSource(raw.fields).items, render)[k].Err?)
      && (r.Err? && raw.RawText? && decode(raw.s).Some? && decode(raw.s).value.JObj? ==>
            var fields := decode(raw.s).value.fields;
            SegmentsSource(fields).JArr? &&
            exists k :: 0 <= k < |SegmentsSource(fields).items| && Outcomes(SegmentsSource(fields).items, render)[k].Err?)
      && (r.Ok? ==> WellFormed(r.value))
  {
    match raw
    case RawOther =>
    case RawDict(d) =>
      DictOutcome(d, render);
    case RawText(s) =>
      if decode(s).None? {
        PlainTextWellFormed(s);
      } else if decode(s).value.JObj? {
        DictOutcome(decode(s).value.fields, render);
      }
  }

  lemma DictOutcome(data: map<string, Json>, render: Json -> string)
    ensures var r := DictSpec(data, render);
      && (r.Err? ==>
            && SegmentsSource(data).JArr?
            && exists k :: 0 <= k < |SegmentsSource(data).items| && Outcomes(SegmentsSource(data).items, render)[k].Err?)
      && (r.Ok? ==> WellFormed(r.value))
  {
    if IsTaggedDict(data) {
      SpeakerTaggedWellFormed(data, render);
      var source := SegmentsSource(data);
      if source.JArr? && source.items != [] {
        SpeakerTaggedList(data, render);
      }
    }
  }

  /** A segment the loop keeps is among the kept segments. */
  lemma {:induction false} KeptSegmentIn(os: seq<Result<Option<Segment>>>, k: nat)
    requires k < |os| && os[k].Ok? && os[k].value.Some?
    ensures os[k].value.value in KeptSegments(os)
  {
    if k > 0 {
      KeptSegmentIn(os[1..], k - 1);
    }
  }

  /**
   * The speaker of an item whose text is kept reaches the parsed speakers
   * as it is, whatever its type: a number, a boolean or null included.
   */
  lemma ItemSpeakerKept(data: map<string, Json>, render: Json -> string, k: nat)
    requires SegmentsSource(data).JArr? && k < |SegmentsSource(data).items|
    requires SegmentOf(SegmentsSource(data).items[k], render).Ok?
    requires SegmentOf(SegmentsSource(data).items[k], render).value.Some?
    requires DictSpec(data, render).Ok?
    ensures SegmentOf(SegmentsSource(data).items[k], render).value.value.speaker in DictSpec(data, render).value.speakers
  {
    var items := SegmentsSource(data).items;
    var os := Outcomes(items, render);
    SpeakerTaggedList(data, render);
    KeptSegmentIn(os, k);
    var segs := DictSpec(data, render).value.segments;
    var j :| 0 <= j < |segs| && segs[j] == os[k].value.value;
    assert segs[j].speaker in SegmentSpeakers(segs);
  }

  /** A plain-text result carries no language hint, so the accessor gives "auto". */
  lemma PlainTextLanguageHint(text: string)
    ensures GetLanguageHint(PlainTextSpec(text)) == JStr("auto")
  {
  }
}
