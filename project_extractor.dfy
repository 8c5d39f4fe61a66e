/**
 * `ProjectExtractor.extract` (backend/extractors/project_extractor.py):
 * the projects the model reports, one record per dict item, with the
 * status written in a canonical capitalised form.
 */
module ProjectExtractor {
  import opened Wrappers
  import opened Strings
  import opened JsonValues
  import opened Extraction

  /** One normalised project; `status` is always a string. */
  datatype Project = Project(name: Json, description: Json, owner: Json, status: string, timelineHints: Json)

  /** A dict answer lists its projects under `projects`, else `data`, else is one project itself. */
  const ProjectKeys: seq<string> := ["projects", "data"]

  // ---------------------------------------------------------------- status

  /**
   * The status normalisation: stripped; a blank status stays empty;
   * anything else is lowered, `_` becomes a space, and `Canonical` spells it.
   */
  function NormalizeStatus(s: string): string {
    var t := Strip(s);
    if t == [] then t else Canonical(ReplaceChar(Lower(t), '_', ' '))
  }

  /**
   * The four known statuses get their canonical spelling; any other is
   * split into words, each capitalised, joined by single spaces. (The
   * source also compares with "in_progress", which cannot match once
   * every `_` has been replaced.)
   */
  function Canonical(low: string): string {
    if low == "in progress" then "In Progress"
    else if low == "proposed" then "Proposed"
    else if low == "blocked" then "Blocked"
    else if low == "completed" then "Completed"
    else Join(CapitalizeAll(SplitWords(low)), " ")
  }

  /** `word.capitalize()` for every word. */
  function CapitalizeAll(ws: seq<string>): (r: seq<string>)
    ensures |r| == |ws| && forall k :: 0 <= k < |ws| ==> r[k] == Capitalize(ws[k])
  {
    if ws == [] then [] else [Capitalize(ws[0])] + CapitalizeAll(ws[1..])
  }

  /** A character `lower()` leaves alone that is not `_`. */
  predicate Plain(c: char) {
    LowerChar(c) == c && c != '_'
  }

  /** A word of a lowered, underscore-free status. */
  predicate PlainWord(w: string) {
    w != [] && NoSpaces(w) && forall i :: 0 <= i < |w| ==> Plain(w[i])
  }

  lemma LowerCharPlain(c: char)
    ensures LowerChar(LowerChar(c)) == LowerChar(c)
    ensures IsSpace(LowerChar(c)) == IsSpace(c)
    ensures IsSpace(UpperChar(c)) == IsSpace(c)
    ensures LowerChar(c) == '_' <==> c == '_'
    ensures LowerChar(c) == c ==> LowerChar(UpperChar(c)) == c
  {
  }

  /** A string made of plain characters. */
  predicate AllPlain(s: string) {
    forall i :: 0 <= i < |s| ==> Plain(s[i])
  }

  /** The words `split()` finds in a string of plain characters are plain. */
  lemma {:induction false} SplitWordsPlain(s: string)
    requires AllPlain(s)
    ensures forall k :: 0 <= k < |SplitWords(s)| ==> PlainWord(SplitWords(s)[k])
    decreases |s|
  {
    var t := StripLeft(s);
    if t != [] {
      var w := Word(t);
      var rest := t[|w|..];
      WordPlain(s, t, w);
      SplitWordsPlain(rest);
      var ws := SplitWords(s);
      assert ws == [w] + SplitWords(rest);
      forall k | 0 <= k < |ws| ensures PlainWord(ws[k]) {
        if k > 0 {
          assert ws[k] == SplitWords(rest)[k - 1];
        }
      }
    }
  }

  lemma WordPlain(s: string, t: string, w: string)
    requires AllPlain(s) && t == StripLeft(s) && t != [] && w == Word(t)
    ensures AllPlain(w) && AllPlain(t[|w|..]) && |t[|w|..]| < |s|
  {
    AllPlainSuffix(s, |s| - |t|);
    AllPlainSuffix(t, |w|);
  }

  lemma AllPlainSuffix(s: string, i: nat)
    requires AllPlain(s) && i <= |s|
    ensures AllPlain(s[i..]) && AllPlain(s[..i])
  {
    forall k | 0 <= k < |s| - i ensures Plain(s[i..][k]) {
      assert s[i..][k] == s[i + k];
    }
  }

  /** The words of a lowered, underscore-replaced string are plain. */
  lemma LoweredWordsPlain(t: string, low: string)
    requires low == ReplaceChar(Lower(t), '_', ' ')
    ensures forall k :: 0 <= k < |SplitWords(low)| ==> PlainWord(SplitWords(low)[k])
  {
    forall i | 0 <= i < |t| ensures Plain(low[i]) {
      LowerCharPlain(t[i]);
    }
    SplitWordsPlain(low);
  }

  /** Capitalised words that were non-empty and free of whitespace still are. */
  lemma CapitalizedWords(ws: seq<string>)
    requires forall k :: 0 <= k < |ws| ==> ws[k] != [] && NoSpaces(ws[k])
    ensures forall k :: 0 <= k < |ws| ==> CapitalizeAll(ws)[k] != [] && NoSpaces(CapitalizeAll(ws)[k])
  {
    forall k | 0 <= k < |ws| ensures CapitalizeAll(ws)[k] != [] && NoSpaces(CapitalizeAll(ws)[k]) {
      var w := ws[k];
      var c := Capitalize(w);
      forall i | 0 <= i < |c| ensures !IsSpace(c[i]) {
        LowerCharPlain(w[i]);
        if i > 0 {
          assert c[i] == Lower(w[1..])[i - 1] == LowerChar(w[i]);
        }
      }
    }
  }

  lemma LowerConcat(a: string, b: string)
    ensures Lower(a + b) == Lower(a) + Lower(b)
  {
  }

  lemma ReplaceConcat(a: string, b: string)
    ensures ReplaceChar(a + b, '_', ' ') == ReplaceChar(a, '_', ' ') + ReplaceChar(b, '_', ' ')
  {
  }

  /** Lowering a capitalised plain word and replacing `_` gives the word back. */
  lemma RelowerWord(w: string)
    requires PlainWord(w)
    ensures ReplaceChar(Lower(Capitalize(w)), '_', ' ') == w
  {
    var c := Capitalize(w);
    forall i | 0 <= i < |w| ensures ReplaceChar(Lower(c), '_', ' ')[i] == w[i] {
      LowerCharPlain(w[i]);
      if i > 0 {
        assert c[i] == Lower(w[1..])[i - 1] == LowerChar(w[i]);
      }
    }
  }

  /** Lowering capitalised plain words joined by spaces gives the words joined by spaces. */
  lemma {:induction false} Relower(ws: seq<string>)
    requires forall k :: 0 <= k < |ws| ==> PlainWord(ws[k])
    ensures ReplaceChar(Lower(Join(CapitalizeAll(ws), " ")), '_', ' ') == Join(ws, " ")
  {
    if |ws| == 1 {
      RelowerWord(ws[0]);
    } else if |ws| > 1 {
      var cs := CapitalizeAll(ws);
      assert cs[1..] == CapitalizeAll(ws[1..]);
      Relower(ws[1..]);
      RelowerWord(ws[0]);
      var head := cs[0] + " ";
      var tail := Join(cs[1..], " ");
      assert Join(cs, " ") == head + tail;
      LowerConcat(head, tail);
      LowerConcat(cs[0], " ");
      ReplaceConcat(Lower(head), Lower(tail));
      ReplaceConcat(Lower(cs[0]), Lower(" "));
    }
  }

  /** `capitalize` of a word with a lower-case first letter and no upper-case letters. */
  lemma CapitalizeWord(w: string, rest: string)
    requires w != [] && 'a' <= w[0] <= 'z' && rest == w[1..]
    requires forall i :: 0 <= i < |rest| ==> !('A' <= rest[i] <= 'Z')
    ensures Capitalize(w) == [UpperChar(w[0])] + rest
  {
    LowerNoUpper(rest);
  }

  /** `lower()` leaves a string without upper-case letters alone. */
  lemma LowerNoUpper(s: string)
    requires forall i :: 0 <= i < |s| ==> !('A' <= s[i] <= 'Z')
    ensures Lower(s) == s
  {
  }

  /** `replace("_", " ")` leaves a string without `_` alone. */
  lemma ReplaceNone(s: string)
    requires forall i :: 0 <= i < |s| ==> s[i] != '_'
    ensures ReplaceChar(s, '_', ' ') == s
  {
  }

  lemma JoinTwo(a: string, b: string)
    ensures Join([a, b], " ") == a + " " + b
  {
    assert [a, b][1..] == [b];
  }

  /** Words whose join is `a b` are `a` and `b`. */
  lemma TwoWords(ws: seq<string>, a: string, b: string)
    requires forall k :: 0 <= k < |ws| ==> ws[k] != [] && NoSpaces(ws[k])
    requires a != [] && NoSpaces(a) && b != [] && NoSpaces(b)
    requires Join(ws, " ") == a + " " + b
    ensures ws == [a, b]
  {
    JoinTwo(a, b);
    SplitWordsOfJoin(ws);
    assert forall k :: 0 <= k < 2 ==> [a, b][k] == (if k == 0 then a else b);
    SplitWordsOfJoin([a, b]);
    assert ws == SplitWords(Join([a, b], " ")) == [a, b];
  }

  lemma CapitalizeTwo(a: string, b: string)
    ensures Join(CapitalizeAll([a, b]), " ") == Capitalize(a) + " " + Capitalize(b)
  {
    assert CapitalizeAll([a, b]) == [Capitalize(a), Capitalize(b)];
    JoinTwo(Capitalize(a), Capitalize(b));
  }

  /** Words whose join is the single word `a` are just `a`, and capitalise to `A`. */
  lemma OneWord(ws: seq<string>, a: string)
    requires forall k :: 0 <= k < |ws| ==> ws[k] != [] && NoSpaces(ws[k])
    requires a != [] && NoSpaces(a)
    requires Join(ws, " ") == a
    ensures ws == [a]
    ensures Join(CapitalizeAll(ws), " ") == Capitalize(a)
  {
    SplitWordsOfJoin(ws);
    SplitWordsOfWord(a);
    CapitalizeOne(a);
  }

  lemma CapitalizeOne(a: string)
    ensures Join(CapitalizeAll([a]), " ") == Capitalize(a)
  {
    assert CapitalizeAll([a]) == [Capitalize(a)];
  }

  /** A word of lower-case ASCII letters is plain. */
  lemma LetterWord(w: string)
    requires w != [] && forall i :: 0 <= i < |w| ==> 'a' <= w[i] <= 'z'
    ensures PlainWord(w)
  {
  }

  lemma InProgressSpelling()
    ensures PlainWord("in") && PlainWord("progress")
    ensures "in progress" == "in" + " " + "progress"
    ensures Capitalize("in") + " " + Capitalize("progress") == "In Progress"
  {
    InProgressWords();
    InProgressCapitals();
  }

  lemma InProgressWords()
    ensures PlainWord("in") && PlainWord("progress")
  {
    LetterWord("in");
    LetterWord("progress");
  }

  lemma InProgressCapitals()
    ensures Capitalize("in") + " " + Capitalize("progress") == "In Progress"
  {
    CapitalizeIn();
    CapitalizeProgress();
  }

  lemma CapitalizeIn()
    ensures Capitalize("in") == "In"
  {
    CapitalizeWord("in", "n");
  }

  lemma CapitalizeProgress()
    ensures Capitalize("progress") == "Progress"
  {
    CapitalizeWord("progress", "rogress");
  }

  lemma ProposedSpelling()
    ensures PlainWord("proposed") && Capitalize("proposed") == "Proposed"
  {
    ProposedLetters();
    ProposedCapital();
  }

  lemma ProposedLetters()
    ensures PlainWord("proposed")
  {
    LetterWord("proposed");
  }

  lemma ProposedCapital()
    ensures Capitalize("proposed") == "Proposed"
  {
    CapitalizeWord("proposed", "roposed");
  }

  lemma BlockedSpelling()
    ensures PlainWord("blocked") && Capitalize("blocked") == "Blocked"
  {
    BlockedLetters();
    BlockedCapital();
  }

  lemma BlockedLetters()
    ensures PlainWord("blocked")
  {
    LetterWord("blocked");
  }

  lemma BlockedCapital()
    ensures Capitalize("blocked") == "Blocked"
  {
    CapitalizeWord("blocked", "locked");
  }

  lemma CompletedSpelling()
    ensures PlainWord("completed") && Capitalize("completed") == "Completed"
  {
    CompletedLetters();
    CompletedCapital();
  }

  lemma CompletedLetters()
    ensures PlainWord("completed")
  {
    LetterWord("completed");
  }

  lemma CompletedCapital()
    ensures Capitalize("completed") == "Completed"
  {
    CapitalizeWord("completed", "ompleted");
  }

  /** On words joined by spaces, `Canonical` is `split`, `capitalize`, `join`: the known spellings agree with it. */
  lemma CanonicalOfJoin(ws: seq<string>)
    requires forall k :: 0 <= k < |ws| ==> ws[k] != [] && NoSpaces(ws[k])
    ensures Canonical(Join(ws, " ")) == Join(CapitalizeAll(ws), " ")
  {
    var j := Join(ws, " ");
    if j == "in progress" {
      InProgressCanonical(ws);
    } else if j == "proposed" {
      ProposedCanonical(ws);
    } else if j == "blocked" {
      BlockedCanonical(ws);
    } else if j == "completed" {
      CompletedCanonical(ws);
    } else {
      SplitWordsOfJoin(ws);
    }
  }

  lemma ProposedCanonical(ws: seq<string>)
    requires forall k :: 0 <= k < |ws| ==> ws[k] != [] && NoSpaces(ws[k])
    requires Join(ws, " ") == "proposed"
    ensures Join(CapitalizeAll(ws), " ") == "Proposed"
  {
    ProposedSpelling();
    OneWordCanonical(ws, "proposed");
  }

  lemma BlockedCanonical(ws: seq<string>)
    requires forall k :: 0 <= k < |ws| ==> ws[k] != [] && NoSpaces(ws[k])
    requires Join(ws, " ") == "blocked"
    ensures Join(CapitalizeAll(ws), " ") == "Blocked"
  {
    BlockedSpelling();
    OneWordCanonical(ws, "blocked");
  }

  lemma CompletedCanonical(ws: seq<string>)
    requires forall k :: 0 <= k < |ws| ==> ws[k] != [] && NoSpaces(ws[k])
    requires Join(ws, " ") == "completed"
    ensures Join(CapitalizeAll(ws), " ") == "Completed"
  {
    CompletedSpelling();
    OneWordCanonical(ws, "completed");
  }

  lemma InProgressCanonical(ws: seq<string>)
    requires forall k :: 0 <= k < |ws| ==> ws[k] != [] && NoSpaces(ws[k])
    requires Join(ws, " ") == "in progress"
    ensures Join(CapitalizeAll(ws), " ") == "In Progress"
  {
    InProgressSpelling();
    TwoWords(ws, "in", "progress");
    CapitalizeTwo("in", "progress");
  }

  lemma OneWordCanonical(ws: seq<string>, w: string)
    requires forall k :: 0 <= k < |ws| ==> ws[k] != [] && NoSpaces(ws[k])
    requires PlainWord(w) && Join(ws, " ") == w
    ensures Join(CapitalizeAll(ws), " ") == Capitalize(w)
  {
    OneWord(ws, w);
  }

  /** Capitalised plain words joined by spaces are already normalised. */
  lemma CapitalizedFixed(ws: seq<string>)
    requires ws != [] && forall k :: 0 <= k < |ws| ==> PlainWord(ws[k])
    ensures NormalizeStatus(Join(CapitalizeAll(ws), " ")) == Join(CapitalizeAll(ws), " ")
  {
    var o := Join(CapitalizeAll(ws), " ");
    CapitalizedWords(ws);
    JoinWordsStripped(CapitalizeAll(ws));
    StripOfStripped(o);
    Relower(ws);
    CanonicalOfJoin(ws);
  }

  /** The canonical spellings are normalised. */
  lemma KnownFixed(low: string)
    requires low == "in progress" || low == "proposed" || low == "blocked" || low == "completed"
    ensures NormalizeStatus(Canonical(low)) == Canonical(low)
  {
    if low == "in progress" {
      InProgressFixed();
    } else if low == "proposed" {
      ProposedSpelling();
      OneWordFixed("proposed");
    } else if low == "blocked" {
      BlockedSpelling();
      OneWordFixed("blocked");
    } else {
      CompletedSpelling();
      OneWordFixed("completed");
    }
  }

  lemma InProgressFixed()
    ensures NormalizeStatus("In Progress") == "In Progress"
  {
    InProgressSpelling();
    CapitalizeTwo("in", "progress");
    assert forall k :: 0 <= k < 2 ==> ["in", "progress"][k] == (if k == 0 then "in" else "progress");
    CapitalizedFixed(["in", "progress"]);
  }

  lemma OneWordFixed(w: string)
    requires PlainWord(w)
    ensures NormalizeStatus(Capitalize(w)) == Capitalize(w)
  {
    CapitalizeOne(w);
    CapitalizedFixed([w]);
  }

  /** Normalising a normalised status changes nothing. */
  lemma NormalizeStatusIdempotent(s: string)
    ensures NormalizeStatus(NormalizeStatus(s)) == NormalizeStatus(s)
  {
    var t := Strip(s);
    if t == [] {
      assert Strip([]) == [];
    } else {
      var low := ReplaceChar(Lower(t), '_', ' ');
      if low == "in progress" || low == "proposed" || low == "blocked" || low == "completed" {
        KnownFixed(low);
      } else {
        var ws := SplitWords(low);
        if ws == [] {
          assert Strip([]) == [];
        } else {
          LoweredWordsPlain(t, low);
          CapitalizedFixed(ws);
        }
      }
    }
  }

  /** A normalised status has no whitespace at either end. */
  lemma NormalizeStatusStripped(s: string)
    ensures IsStripped(NormalizeStatus(s))
  {
    var t := Strip(s);
    if t != [] {
      CanonicalStripped(ReplaceChar(Lower(t), '_', ' '));
    }
  }

  lemma CanonicalStripped(low: string)
    ensures IsStripped(Canonical(low))
  {
    if !(low == "in progress" || low == "proposed" || low == "blocked" || low == "completed") {
      CapitalizedStripped(SplitWords(low));
    } else {
      KnownStripped();
    }
  }

  lemma KnownStripped()
    ensures IsStripped("In Progress") && IsStripped("Proposed") && IsStripped("Blocked") && IsStripped("Completed")
  {
  }

  lemma CapitalizedStripped(ws: seq<string>)
    requires forall k :: 0 <= k < |ws| ==> ws[k] != [] && NoSpaces(ws[k])
    ensures IsStripped(Join(CapitalizeAll(ws), " "))
  {
    CapitalizedWords(ws);
    JoinWordsStripped(CapitalizeAll(ws));
  }

  /**
   * The status comes out empty exactly when, once stripped, it holds
   * nothing but `_` and whitespace (a blank status included).
   */
  lemma NormalizeStatusEmpty(s: string)
    ensures NormalizeStatus(s) == [] <==> forall i :: 0 <= i < |Strip(s)| ==> IsSpace(Strip(s)[i]) || Strip(s)[i] == '_'
  {
    var t := Strip(s);
    if t != [] {
      var low := ReplaceChar(Lower(t), '_', ' ');
      forall i | 0 <= i < |t| ensures IsSpace(low[i]) <==> IsSpace(t[i]) || t[i] == '_' {
        LowerCharPlain(t[i]);
      }
      var ws := SplitWords(low);
      if low == "in progress" || low == "proposed" || low == "blocked" || low == "completed" {
        assert !IsSpace(low[0]);
      } else if ws != [] {
        CapitalizedWords(ws);
        JoinWordsStripped(CapitalizeAll(ws));
        var r := StripLeft(low);
        assert !IsSpace(low[|low| - |r|]);
      } else {
        assert StripLeft(low) == [];
      }
    }
  }

  /** A missing status is taken as "proposed", which comes out "Proposed". */
  lemma DefaultStatus()
    ensures NormalizeStatus("proposed") == "Proposed"
  {
    PlainStatus("proposed");
  }

  /** A stripped status in lower case without `_` is only respelled. */
  lemma PlainStatus(s: string)
    requires s != [] && IsStripped(s)
    requires forall i :: 0 <= i < |s| ==> !('A' <= s[i] <= 'Z') && s[i] != '_'
    ensures NormalizeStatus(s) == Canonical(s)
  {
    StripOfStripped(s);
    LowerNoUpper(s);
    ReplaceNone(s);
  }

  // ---------------------------------------------------------------- items

  /**
   * One project record: missing fields take their defaults and present
   * ones are copied; a status that is not a string makes `strip` raise.
   */
  function NormaliseProject(p: map<string, Json>): Result<Project> {
    var status := Get(p, "status", JStr("proposed"));
    if !status.JStr? then Err("AttributeError: status has no strip")
    else Ok(Project(
      Get(p, "name", JStr("Unnamed Project")),
      Get(p, "description", JStr("")),
      Get(p, "owner", JStr("")),
      NormalizeStatus(status.s),
      Get(p, "timeline_hints", JStr(""))))
  }

  /** Each field is copied when present and defaulted when absent; a missing status reads "Proposed". */
  lemma NormaliseProjectFields(p: map<string, Json>)
    ensures NormaliseProject(p).Err? <==> "status" in p && !p["status"].JStr?
    ensures NormaliseProject(p).Ok? ==>
      var r := NormaliseProject(p).value;
      && r.name == (if "name" in p then p["name"] else JStr("Unnamed Project"))
      && r.description == (if "description" in p then p["description"] else JStr(""))
      && r.owner == (if "owner" in p then p["owner"] else JStr(""))
      && r.timelineHints == (if "timeline_hints" in p then p["timeline_hints"] else JStr(""))
      && r.status == (if "status" in p then NormalizeStatus(p["status"].s) else "Proposed")
  {
    DefaultStatus();
  }

  /** The projects `extract` returns for the answer of `generate_json`. */
  function ExtractSpec(response: Response): seq<Project> {
    Extracted(response, ProjectKeys, true, NormaliseProject)
  }

  method ExtractProjects(response: Response) returns (projects: seq<Project>)
    ensures projects == ExtractSpec(response)
  {
    projects := Extract(response, ProjectKeys, true, NormaliseProject);
  }
}
