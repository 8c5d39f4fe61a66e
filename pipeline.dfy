/**
 * The decisions `MeetingPipeline` (backend/pipeline.py) takes around the
 * parser, the extractors and the stores: which transcript is parsed,
 * which title and project name win, how the summary is labelled, how the
 * meeting's project rows are replaced, and how `get_meeting` and
 * `list_meetings` read the tables back. The database is three in-memory
 * tables; what the text generator answered each extractor is a parameter.
 */
module Pipeline {
  import opened Wrappers
  import opened Strings
  import opened JsonValues
  import TranscriptParser
  import ProjectExtractor
  import ExternalIdeasScope
  import ProjectName
  import Pulse
  import Health
  import PainPoints
  import VectorStore
  import Chunker

  // ================================================================ tables

  datatype MeetingRow = MeetingRow(
    title: Json, projectName: string, transcriptText: string,
    transcript: TranscriptParser.Transcript, createdAt: int)

  datatype ExtractedRow = ExtractedRow(
    summary: string, projectDetails: seq<ProjectExtractor.Project>, health: Health.Health,
    pulse: Pulse.Pulse, painPoints: PainPoints.PainPoints,
    ideasScope: seq<ExternalIdeasScope.ScopeIdea>, overallSentiment: Json)

  datatype ProjectRow = ProjectRow(
    meetingId: int, name: Json, description: Json, owner: Json, status: string,
    blockers: Json, risks: Json)

  /** What the text generator answered each extractor (or the exception it raised). */
  datatype Replies = Replies(
    name: Result<string>, summary: Result<string>, projects: Result<Json>, health: Result<Json>,
    pulse: Result<Json>, painPoints: Result<Json>, ideas: Result<Json>)

  /** The dict `process` returns. */
  datatype Processed = Processed(meetingId: int, projectName: string, data: ExtractedRow)

  // ================================================================ decisions of `process`

  /** The transcript handed to the parser: a non-empty dict when one is given, the text otherwise. */
  function ParseSource(transcript: string, transcriptJson: Option<Json>): (raw: TranscriptParser.RawTranscript)
    ensures transcriptJson.Some? && transcriptJson.value.JObj? && Truthy(transcriptJson.value) ==>
      raw == TranscriptParser.RawDict(transcriptJson.value.fields)
    ensures !(transcriptJson.Some? && transcriptJson.value.JObj? && Truthy(transcriptJson.value)) ==>
      raw == TranscriptParser.RawText(transcript)
  {
    if transcriptJson.Some? && Truthy(transcriptJson.value) && transcriptJson.value.JObj? then
      TranscriptParser.RawDict(transcriptJson.value.fields)
    else TranscriptParser.RawText(transcript)
  }

  /** The caller's title, replaced by the transcript's own title only when the caller's is empty. */
  function ResolvedTitle(callerTitle: Json, parsedTitle: Json): (t: Json)
    ensures Truthy(callerTitle) ==> t == callerTitle
    ensures !Truthy(callerTitle) && Truthy(parsedTitle) ==> t == parsedTitle
    ensures !Truthy(callerTitle) && !Truthy(parsedTitle) ==> t == callerTitle
    ensures Truthy(t) <==> Truthy(callerTitle) || Truthy(parsedTitle)
  {
    if !Truthy(callerTitle) && Truthy(parsedTitle) then parsedTitle else callerTitle
  }

  /** The caller's optional title as the value Python holds. */
  function TitleValue(title: Option<string>): Json {
    if title.Some? then JStr(title.value) else JNull
  }

  /** The title as the name extractor's fallback sees it. */
  function NameTitle(title: Json): Option<string> {
    if title.JStr? then Some(title.s) else None
  }

  /**
   * A project name the caller gives is used stripped, unless it is blank;
   * then the name extractor decides, with the title as its fallback.
   */
  function ResolvedProjectName(given: Option<string>, nameReply: Result<string>, title: Json): (n: string)
    ensures given.Some? && Strip(given.value) != [] ==> n == Strip(given.value)
    ensures !(given.Some? && Strip(given.value) != []) ==> n == ProjectName.ExtractName(nameReply, NameTitle(title))
    ensures n != []
  {
    if given.None? || Strip(given.value) == [] then ProjectName.ExtractName(nameReply, NameTitle(title))
    else Strip(given.value)
  }

  const UnnamedProject := "Unnamed Project"

  /** The summary, headed by the project name unless the name is empty or the default. */
  function LabelledSummary(name: string, summary: string): (r: string)
    ensures name == [] || name == UnnamedProject ==> r == summary
    ensures name != [] && name != UnnamedProject ==>
      StartsWith(r, "**Project: " + name + "**\n\n") && r[|"**Project: " + name + "**\n\n"|..] == summary
  {
    if name != [] && name != UnnamedProject then "**Project: " + name + "**\n\n" + summary else summary
  }

  /**
   * A speaker that is not a string: the pulse extractor's
   * `', '.join(speakers)` runs before its `try` and raises on it.
   */
  predicate NonStringSpeaker(speakers: set<Json>) {
    exists sp :: sp in speakers && !sp.JStr?
  }

  const SpeakerJoinError := "TypeError: sequence item: expected str instance"

  /**
   * Everything the extractors produce for the meeting, or the exception
   * that escapes them: the summary extractor's (it has no fallback, and
   * runs first), else the pulse extractor's join over the speakers. The
   * summary's answer is stripped.
   */
  function ExtractAll(name: string, speakers: set<Json>, replies: Replies, parseFloat: string -> Option<real>): (r: Result<ExtractedRow>)
    ensures r.Err? <==> replies.summary.Err? || NonStringSpeaker(speakers)
    ensures replies.summary.Err? ==> r == Err(replies.summary.error)
    ensures replies.summary.Ok? && NonStringSpeaker(speakers) ==> r == Err(SpeakerJoinError)
    ensures r.Ok? ==> r.value.summary == LabelledSummary(name, Strip(replies.summary.value))
    ensures r.Ok? ==> r.value.overallSentiment == r.value.pulse.overallSentiment
    ensures r.Ok? ==> 0.0 <= r.value.pulse.sentimentScore <= 1.0
  {
    match replies.summary
    case Err(e) => Err(e)
    case Ok(summaryText) =>
      if NonStringSpeaker(speakers) then Err(SpeakerJoinError)
      else
        var pulse := Pulse.ExtractPulse(replies.pulse, parseFloat);
        Ok(ExtractedRow(
          LabelledSummary(name, Strip(summaryText)),
          ProjectExtractor.ExtractSpec(replies.projects),
          Health.ExtractHealth(replies.health),
          pulse,
          PainPoints.ExtractPainPoints(replies.painPoints),
          ExternalIdeasScope.ExtractSpec(replies.ideas),
          pulse.overallSentiment))
  }

  /**
   * A dict transcript whose kept item has a number, a boolean or null as
   * its speaker parses, and then makes the extractors raise once the
   * summary is written.
   */
  lemma NonStringItemSpeakerRaises(data: map<string, Json>, render: Json -> string, k: nat,
                                   name: string, replies: Replies, parseFloat: string -> Option<real>)
    requires TranscriptParser.SegmentsSource(data).JArr? && k < |TranscriptParser.SegmentsSource(data).items|
    requires TranscriptParser.SegmentOf(TranscriptParser.SegmentsSource(data).items[k], render).Ok?
    requires TranscriptParser.SegmentOf(TranscriptParser.SegmentsSource(data).items[k], render).value.Some?
    requires !TranscriptParser.SegmentOf(TranscriptParser.SegmentsSource(data).items[k], render).value.value.speaker.JStr?
    requires TranscriptParser.DictSpec(data, render).Ok? && replies.summary.Ok?
    ensures ExtractAll(name, TranscriptParser.DictSpec(data, render).value.speakers, replies, parseFloat) == Err(SpeakerJoinError)
  {
    TranscriptParser.ItemSpeakerKept(data, render, k);
  }

  // ================================================================ project rows

  /**
   * The status a project row gets: an empty status stays empty; any other
   * is lowered, `_` becomes a space, and it is spelled as `Canonical` says.
   * Unlike the extractor, this does not strip first.
   */
  function RowStatus(status: string): string {
    if status == [] then status
    else ProjectExtractor.Canonical(ReplaceChar(Lower(status), '_', ' '))
  }

  /** On a status without whitespace at either end the row mapping is the extractor's normalisation. */
  lemma RowStatusOfStripped(status: string)
    requires IsStripped(status)
    ensures RowStatus(status) == ProjectExtractor.NormalizeStatus(status)
  {
    StripOfStripped(status);
  }

  /** Re-normalising an extracted status leaves it as it is. */
  lemma RowStatusOfExtracted(s: string)
    ensures RowStatus(ProjectExtractor.NormalizeStatus(s)) == ProjectExtractor.NormalizeStatus(s)
  {
    ProjectExtractor.NormalizeStatusStripped(s);
    RowStatusOfStripped(ProjectExtractor.NormalizeStatus(s));
    ProjectExtractor.NormalizeStatusIdempotent(s);
  }

  /** The row of one extracted project, with the meeting's blockers and risks. */
  function RowOf(meetingId: int, p: ProjectExtractor.Project, health: Health.Health): ProjectRow {
    ProjectRow(meetingId, p.name, p.description, p.owner, RowStatus(p.status), health.blockers, health.risks)
  }

  /** One row per extracted project, in order. */
  function RowsFor(meetingId: int, details: seq<ProjectExtractor.Project>, health: Health.Health): (rows: seq<ProjectRow>)
    ensures |rows| == |details|
    ensures forall k :: 0 <= k < |details| ==> rows[k] == RowOf(meetingId, details[k], health)
  {
    seq(|details|, k requires 0 <= k < |details| => RowOf(meetingId, details[k], health))
  }

  /** The rows of one meeting, in table order. */
  function RowsOf(rows: seq<ProjectRow>, meetingId: int): (r: seq<ProjectRow>)
    ensures |r| <= |rows|
    ensures forall k :: 0 <= k < |r| ==> r[k].meetingId == meetingId && r[k] in rows
  {
    if rows == [] then []
    else if rows[0].meetingId == meetingId then [rows[0]] + RowsOf(rows[1..], meetingId)
    else RowsOf(rows[1..], meetingId)
  }

  /** The rows of every other meeting, in table order. */
  function OtherRows(rows: seq<ProjectRow>, meetingId: int): (r: seq<ProjectRow>)
    ensures |r| <= |rows|
    ensures forall k :: 0 <= k < |r| ==> r[k].meetingId != meetingId && r[k] in rows
  {
    if rows == [] then []
    else if rows[0].meetingId != meetingId then [rows[0]] + OtherRows(rows[1..], meetingId)
    else OtherRows(rows[1..], meetingId)
  }

  lemma {:induction false} RowsOfConcat(a: seq<ProjectRow>, b: seq<ProjectRow>, meetingId: int)
    ensures RowsOf(a + b, meetingId) == RowsOf(a, meetingId) + RowsOf(b, meetingId)
  {
    if a == [] {
      assert a + b == b;
    } else {
      assert (a + b)[0] == a[0];
      assert (a + b)[1..] == a[1..] + b;
      RowsOfConcat(a[1..], b, meetingId);
    }
  }

  lemma {:induction false} RowsOfOthers(rows: seq<ProjectRow>, meetingId: int, other: int)
    ensures RowsOf(OtherRows(rows, meetingId), meetingId) == []
    ensures other != meetingId ==> RowsOf(OtherRows(rows, meetingId), other) == RowsOf(rows, other)
  {
    if rows != [] {
      RowsOfOthers(rows[1..], meetingId, other);
    }
  }

  lemma {:induction false} RowsOfOwn(rows: seq<ProjectRow>, meetingId: int)
    requires forall k :: 0 <= k < |rows| ==> rows[k].meetingId == meetingId
    ensures RowsOf(rows, meetingId) == rows
  {
    if rows != [] {
      RowsOfOwn(rows[1..], meetingId);
    }
  }

  lemma {:induction false} RowsOfNone(rows: seq<ProjectRow>, meetingId: int)
    requires forall k :: 0 <= k < |rows| ==> rows[k].meetingId != meetingId
    ensures RowsOf(rows, meetingId) == []
  {
    if rows != [] {
      RowsOfNone(rows[1..], meetingId);
    }
  }

  /**
   * Replacing a meeting's rows: afterwards the meeting has exactly the
   * new rows, in order, and every other meeting has the rows it had.
   */
  lemma ReplacedRows(rows: seq<ProjectRow>, meetingId: int, details: seq<ProjectExtractor.Project>,
                     health: Health.Health, other: int)
    requires other != meetingId
    ensures var after := OtherRows(rows, meetingId) + RowsFor(meetingId, details, health);
      && RowsOf(after, meetingId) == RowsFor(meetingId, details, health)
      && RowsOf(after, other) == RowsOf(rows, other)
  {
    var added := RowsFor(meetingId, details, health);
    RowsOfConcat(OtherRows(rows, meetingId), added, meetingId);
    RowsOfConcat(OtherRows(rows, meetingId), added, other);
    RowsOfOthers(rows, meetingId, other);
    RowsOfOwn(added, meetingId);
    RowsOfNone(added, other);
  }

  // ================================================================ reading back

  /** A `project_details` entry of `get_meeting`: an extracted project, or a row of the projects table. */
  datatype ProjectView = FromExtracted(project: ProjectExtractor.Project) | FromRow(row: ProjectRow)

  /**
   * The dict `get_meeting` returns. Without extracted data the summary is
   * None (`None` here), health, pulse and pain points are `{}` (`None`
   * here), the ideas `[]` and the sentiment "neutral".
   */
  datatype MeetingView = MeetingView(
    id: int, title: Json, projectName: string, createdAt: int, summary: Option<string>,
    projectDetails: seq<ProjectView>, health: Option<Health.Health>, pulse: Option<Pulse.Pulse>,
    painPoints: Option<PainPoints.PainPoints>, ideasScope: seq<ExternalIdeasScope.ScopeIdea>,
    overallSentiment: Json)

  function Extracted(ps: seq<ProjectExtractor.Project>): (vs: seq<ProjectView>)
    ensures |vs| == |ps| && forall k :: 0 <= k < |ps| ==> vs[k] == FromExtracted(ps[k])
  {
    seq(|ps|, k requires 0 <= k < |ps| => FromExtracted(ps[k]))
  }

  function Stored(rows: seq<ProjectRow>): (vs: seq<ProjectView>)
    ensures |vs| == |rows| && forall k :: 0 <= k < |rows| ==> vs[k] == FromRow(rows[k])
  {
    seq(|rows|, k requires 0 <= k < |rows| => FromRow(rows[k]))
  }

  /**
   * `project_details`: the extracted list when there is one and it is not
   * empty, else the meeting's rows.
   */
  function ProjectDetails(data: Option<ExtractedRow>, rows: seq<ProjectRow>): (vs: seq<ProjectView>)
    ensures data.Some? && data.value.projectDetails != [] ==> vs == Extracted(data.value.projectDetails)
    ensures !(data.Some? && data.value.projectDetails != []) ==> vs == Stored(rows)
  {
    if data.Some? && data.value.projectDetails != [] then Extracted(data.value.projectDetails) else Stored(rows)
  }

  /** `get_meeting` over the three tables. */
  function MeetingViewOf(meetings: map<int, MeetingRow>, extracted: map<int, ExtractedRow>,
                         projects: seq<ProjectRow>, id: int): (v: Option<MeetingView>)
    ensures v.None? <==> id !in meetings
  {
    if id !in meetings then None
    else
      var m := meetings[id];
      var data := if id in extracted then Some(extracted[id]) else None;
      Some(MeetingView(
        id, m.title, m.projectName, m.createdAt,
        if data.Some? then Some(data.value.summary) else None,
        ProjectDetails(data, RowsOf(projects, id)),
        if data.Some? then Some(data.value.health) else None,
        if data.Some? then Some(data.value.pulse) else None,
        if data.Some? then Some(data.value.painPoints) else None,
        if data.Some? then data.value.ideasScope else [],
        if data.Some? then data.value.overallSentiment else JStr("neutral")))
  }

  /** A meeting without extracted data reads back with the defaults and its stored rows. */
  lemma ViewWithoutData(meetings: map<int, MeetingRow>, extracted: map<int, ExtractedRow>,
                        projects: seq<ProjectRow>, id: int)
    requires id in meetings && id !in extracted
    ensures var v := MeetingViewOf(meetings, extracted, projects, id).value;
      && v.summary.None? && v.health.None? && v.pulse.None? && v.painPoints.None?
      && v.ideasScope == [] && v.overallSentiment == JStr("neutral")
      && v.projectDetails == Stored(RowsOf(projects, id))
  {
  }

  /**
   * What `process` stores reads back: the meeting's row, its extracted
   * data, and as project details the extracted projects or, when there
   * are none, the rows just written (which are then none either).
   */
  lemma ViewAfterProcess(meetings: map<int, MeetingRow>, extracted: map<int, ExtractedRow>,
                         projects: seq<ProjectRow>, id: int, row: MeetingRow, data: ExtractedRow)
    ensures var rows := OtherRows(projects, id) + RowsFor(id, data.projectDetails, data.health);
      var v := MeetingViewOf(meetings[id := row], extracted[id := data], rows, id);
      && v.Some?
      && v.value.title == row.title && v.value.projectName == row.projectName
      && v.value.summary == Some(data.summary)
      && v.value.health == Some(data.health) && v.value.pulse == Some(data.pulse)
      && v.value.overallSentiment == data.overallSentiment
      && v.value.projectDetails == Extracted(data.projectDetails)
  {
    var rows := OtherRows(projects, id) + RowsFor(id, data.projectDetails, data.health);
    if data.projectDetails == [] {
      RowsOfConcat(OtherRows(projects, id), [], id);
      RowsOfOthers(projects, id, id);
      assert RowsFor(id, [], data.health) == [];
      assert Stored([]) == [] == Extracted([]);
    }
  }

  // ================================================================ listing

  datatype MeetingSummary = MeetingSummary(id: int, title: Json, projectName: string, createdAt: int)

  predicate NewestFirst(list: seq<MeetingSummary>) {
    forall i, j :: 0 <= i < j < |list| ==> list[i].createdAt >= list[j].createdAt
  }

  function SummaryOf(id: int, m: MeetingRow): MeetingSummary {
    MeetingSummary(id, m.title, m.projectName, m.createdAt)
  }

  /** Puts an entry into a newest-first list after every entry at least as new. */
  function Insert(list: seq<MeetingSummary>, x: MeetingSummary): (r: seq<MeetingSummary>)
    requires NewestFirst(list)
    ensures NewestFirst(r) && |r| == |list| + 1
    ensures forall e :: e in r <==> e in list || e == x
  {
    if list == [] then [x]
    else if list[0].createdAt <= x.createdAt then [x] + list
    else
      var rest := Insert(list[1..], x);
      assert forall e :: e in rest ==> list[0].createdAt >= e.createdAt;
      [list[0]] + rest
  }

  lemma ExistsMember(s: set<int>)
    requires s != {}
    ensures exists k :: k in s
  {
    if forall k :: k !in s {
      assert false;
    }
  }

  // ================================================================ the pipeline

  /** The pipeline's tables, the vector store it feeds, and the next meeting id the database hands out. */
  class MeetingPipeline {
    var meetings: map<int, MeetingRow>
    var extracted: map<int, ExtractedRow>
    var projects: seq<ProjectRow>
    var nextId: int
    const store: VectorStore.EmbeddingStore

    /** Every meeting id was handed out before `nextId`. */
    predicate Valid()
      reads this
    {
      forall id :: id in meetings ==> id < nextId
    }

    constructor (store: VectorStore.EmbeddingStore)
      ensures Valid() && this.store == store
      ensures meetings == map[] && extracted == map[] && projects == [] && nextId == 1
    {
      meetings := map[];
      extracted := map[];
      projects := [];
      nextId := 1;
      this.store := store;
    }

    /** `db.add(meeting)` and `commit`: the meeting gets the next id. */
    method AddMeeting(row: MeetingRow) returns (id: int)
      requires Valid()
      modifies this
      ensures Valid() && id == old(nextId) && id !in old(meetings)
      ensures meetings == old(meetings)[id := row]
      ensures extracted == old(extracted) && projects == old(projects)
    {
      id := nextId;
      meetings := meetings[id := row];
      nextId := nextId + 1;
    }

    /** Delete the meeting's project rows, then add one row per extracted project. */
    method ReplaceProjectRows(meetingId: int, details: seq<ProjectExtractor.Project>, health: Health.Health)
      modifies this
      ensures projects == OtherRows(old(projects), meetingId) + RowsFor(meetingId, details, health)
      ensures meetings == old(meetings) && extracted == old(extracted) && nextId == old(nextId)
    {
      projects := OtherRows(projects, meetingId);
      ghost var kept := projects;
      var i := 0;
      while i < |details|
        invariant 0 <= i <= |details|
        invariant projects == kept + RowsFor(meetingId, details[..i], health)
        invariant meetings == old(meetings) && extracted == old(extracted) && nextId == old(nextId)
      {
        RowsForSnoc(meetingId, details, i, health);
        projects := projects + [RowOf(meetingId, details[i], health)];
        i := i + 1;
      }
      assert details[..i] == details;
    }

    /** The rows for one more project are the rows so far and the project's row. */
    static lemma RowsForSnoc(meetingId: int, details: seq<ProjectExtractor.Project>, i: nat, health: Health.Health)
      requires i < |details|
      ensures RowsFor(meetingId, details[..i + 1], health) == RowsFor(meetingId, details[..i], health) + [RowOf(meetingId, details[i], health)]
    {
      var a := RowsFor(meetingId, details[..i + 1], health);
      var b := RowsFor(meetingId, details[..i], health) + [RowOf(meetingId, details[i], health)];
      assert |a| == |b|;
      forall k | 0 <= k < |a| ensures a[k] == b[k] {
        assert details[..i + 1][k] == details[k];
      }
    }

    /**
     * `process`: parse (an exception here stores nothing), settle title
     * and project name, commit the meeting, run the extractors (the
     * summary's exception leaves the committed meeting behind), store the
     * extracted data, replace the project rows and index the transcript.
     */
    method Process(transcript: string, title: Option<string>, projectName: Option<string>,
                   transcriptJson: Option<Json>, replies: Replies, now: int,
                   decode: string -> Option<Json>, render: Json -> string, parseFloat: string -> Option<real>)
      returns (r: Result<Processed>)
      requires Valid()
      modifies this, store
      ensures Valid()
      ensures TranscriptParser.ParseSpec(ParseSource(transcript, transcriptJson), decode, render).Err? ==>
        r.Err? && meetings == old(meetings) && extracted == old(extracted) && projects == old(projects) &&
        nextId == old(nextId) && store.collection == old(store.collection)
      ensures var parsed := TranscriptParser.ParseSpec(ParseSource(transcript, transcriptJson), decode, render);
        parsed.Ok? ==>
          var t := parsed.value;
          var ttl := ResolvedTitle(TitleValue(title), TranscriptParser.GetTitle(t));
          var name := ResolvedProjectName(projectName, replies.name, ttl);
          meetings == old(meetings)[old(nextId) := MeetingRow(ttl, name, t.text, t, now)]
      ensures var parsed := TranscriptParser.ParseSpec(ParseSource(transcript, transcriptJson), decode, render);
        parsed.Ok? && (replies.summary.Err? || NonStringSpeaker(parsed.value.speakers)) ==>
          r.Err? && extracted == old(extracted) && projects == old(projects) &&
          store.collection == old(store.collection)
      ensures var parsed := TranscriptParser.ParseSpec(ParseSource(transcript, transcriptJson), decode, render);
        parsed.Ok? && replies.summary.Ok? && !NonStringSpeaker(parsed.value.speakers) ==>
          var t := parsed.value;
          var name := ResolvedProjectName(projectName, replies.name, ResolvedTitle(TitleValue(title), TranscriptParser.GetTitle(t)));
          var data := ExtractAll(name, t.speakers, replies, parseFloat).value;
          && r == Ok(Processed(old(nextId), name, data))
          && extracted == old(extracted)[old(nextId) := data]
          && projects == OtherRows(old(projects), old(nextId)) + RowsFor(old(nextId), data.projectDetails, data.health)
          && store.collection == VectorStore.Added(old(store.collection),
               VectorStore.MeetingEntries(old(nextId), Chunker.ChunkSpec(t.text)))
    {
      var parsed := TranscriptParser.Parse(ParseSource(transcript, transcriptJson), decode, render);
      if parsed.Err? {
        r := Err(parsed.error);
      } else {
        var t := parsed.value;
        var text := t.text;
        var ttl := ResolvedTitle(TitleValue(title), TranscriptParser.GetTitle(t));
        var name := ResolvedProjectName(projectName, replies.name, ttl);
        var id := AddMeeting(MeetingRow(ttl, name, text, t, now));
        var data := ExtractAll(name, t.speakers, replies, parseFloat);
        if data.Err? {
          r := Err("Error processing meeting: " + data.error);
        } else {
          StoreExtraction(id, text, data.value);
          r := Ok(Processed(id, name, data.value));
        }
      }
    }

    /** Everything `process` writes once the extractors have run: the data, the project rows, the index. */
    method StoreExtraction(id: int, text: string, data: ExtractedRow)
      requires Valid()
      modifies this, store
      ensures Valid() && meetings == old(meetings) && nextId == old(nextId)
      ensures extracted == old(extracted)[id := data]
      ensures projects == OtherRows(old(projects), id) + RowsFor(id, data.projectDetails, data.health)
      ensures store.collection == VectorStore.Added(old(store.collection),
                VectorStore.MeetingEntries(id, Chunker.ChunkSpec(text)))
      ensures Chunker.AllAdvance(text, 0) ==>
        Chunker.ChunkAsWritten(text, |text|).Some? &&
        store.collection == VectorStore.Added(old(store.collection),
          VectorStore.MeetingEntries(id, Chunker.ChunkAsWritten(text, |text|).value))
    {
      extracted := extracted[id := data];
      ReplaceProjectRows(id, data.projectDetails, data.health);
      store.AddMeeting(id, text, None);
    }

    /** `get_meeting`. */
    function GetMeeting(id: int): (v: Option<MeetingView>)
      reads this
      ensures v == MeetingViewOf(meetings, extracted, projects, id)
      ensures v.Some? ==> v.value.id == id && v.value.title == meetings[id].title
    {
      MeetingViewOf(meetings, extracted, projects, id)
    }

    /** `list_meetings`: every meeting once, newest first (meetings created at the same time in any order). */
    method ListMeetings() returns (list: seq<MeetingSummary>)
      ensures NewestFirst(list) && |list| == |meetings|
      ensures forall e :: e in list <==> e.id in meetings && e == SummaryOf(e.id, meetings[e.id])
    {
      list := [];
      var remaining := meetings.Keys;
      while remaining != {}
        invariant remaining <= meetings.Keys
        invariant NewestFirst(list) && |list| + |remaining| == |meetings|
        invariant forall e :: e in list <==> e.id in meetings.Keys - remaining && e == SummaryOf(e.id, meetings[e.id])
        decreases |remaining|
      {
        assert exists k :: k in remaining by {
          ExistsMember(remaining);
        }
        var id :| id in remaining;
        list := Insert(list, SummaryOf(id, meetings[id]));
        remaining := remaining - {id};
      }
    }
  }
}
