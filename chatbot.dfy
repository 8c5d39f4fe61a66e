/**
 * `MeetingChatbot` (backend/chatbot.py): how a question is scoped to a
 * project's meetings, how the retrieved chunks become the prompt's
 * context, which prompt template is used, and when the exchange is
 * written to the chat history. The meeting lookup, `search`, `generate`
 * and `generate_stream` are caller-supplied functions; the history is
 * the sequence of entries the chatbot has written.
 */
module Chatbot {
  import opened Wrappers
  import opened Strings

  /** One search result: the chunk text and the `meeting_id` of its metadata, if any. */
  datatype Retrieved = Retrieved(text: string, meetingId: Option<int>)

  /** The arguments `search` is called with. */
  datatype SearchCall = SearchCall(question: string, meetingId: Option<int>, meetingIds: Option<seq<int>>, topK: int)

  datatype HistoryEntry = HistoryEntry(meetingId: Option<int>, query: string, response: string)

  /** What a generator produced before it ended, and the exception it ended with, if any. */
  datatype Stream = Stream(fragments: seq<string>, error: Option<string>)

  /** A meeting id counts as given when it is truthy: present and not 0. */
  predicate IdGiven(meetingId: Option<int>) {
    meetingId.Some? && meetingId.value != 0
  }

  /** A project name counts as given when it is truthy: present and not empty. */
  predicate NameGiven(projectName: Option<string>) {
    projectName.Some? && projectName.value != []
  }

  const NoInformationReply := "I couldn't find any relevant information in the meeting transcripts to answer your question."

  function NoMeetingsReply(projectName: string): (r: string)
    ensures StartsWith(r, "I couldn't find any meetings for the project '")
  {
    "I couldn't find any meetings for the project '" + projectName + "'."
  }

  // ---------------------------------------------------------------- scope

  /**
   * `meeting_ids`: the ids of the named project's meetings, or None when
   * no project is named or the lookup raised (the error is logged and the
   * question goes unscoped).
   */
  function ProjectMeetings(projectName: Option<string>, lookup: string -> Result<seq<int>>): (ids: Option<seq<int>>)
    ensures ids.Some? <==> NameGiven(projectName) && lookup(projectName.value).Ok?
    ensures ids.Some? ==> ids.value == lookup(projectName.value).value
  {
    if NameGiven(projectName) && lookup(projectName.value).Ok? then Some(lookup(projectName.value).value) else None
  }

  /** The single meeting the search is filtered to: the one asked about, else the project's only meeting. */
  function FilterMeetingId(meetingId: Option<int>, meetingIds: Option<seq<int>>): (f: Option<int>)
    ensures IdGiven(meetingId) ==> f == meetingId
    ensures !IdGiven(meetingId) ==> (f.Some? <==> meetingIds.Some? && |meetingIds.value| == 1)
    ensures !IdGiven(meetingId) && f.Some? ==> f.value == meetingIds.value[0]
  {
    if IdGiven(meetingId) then meetingId
    else if meetingIds.Some? && |meetingIds.value| == 1 then Some(meetingIds.value[0])
    else None
  }

  /** The meeting the history entry is filed under: the one asked about, else the project's first meeting. */
  function HistoryMeetingId(meetingId: Option<int>, meetingIds: Option<seq<int>>): (h: Option<int>)
    ensures IdGiven(meetingId) ==> h == meetingId
    ensures !IdGiven(meetingId) ==> (h.Some? <==> meetingIds.Some? && meetingIds.value != [])
    ensures !IdGiven(meetingId) && h.Some? ==> h.value == meetingIds.value[0]
  {
    if IdGiven(meetingId) then meetingId
    else if meetingIds.Some? && meetingIds.value != [] then Some(meetingIds.value[0])
    else None
  }

  // ---------------------------------------------------------------- prompt

  datatype Template = SingleMeeting(id: int) | ProjectWide(projectName: string) | VariousMeetings

  /**
   * The prompt template: a project with one meeting or a given meeting id
   * gets the single-meeting template, a project with several meetings the
   * project template, anything else the "various meetings" template.
   */
  function ChooseTemplate(meetingId: Option<int>, meetingIds: Option<seq<int>>, projectName: Option<string>): (t: Template)
    ensures meetingIds.Some? && |meetingIds.value| == 1 ==> t == SingleMeeting(meetingIds.value[0])
    ensures meetingIds.Some? && |meetingIds.value| > 1 && projectName.Some? ==> t == ProjectWide(projectName.value)
    ensures (meetingIds.None? || meetingIds.value == []) && IdGiven(meetingId) ==> t == SingleMeeting(meetingId.value)
    ensures (meetingIds.None? || meetingIds.value == []) && !IdGiven(meetingId) ==> t == VariousMeetings
  {
    if meetingIds.Some? && |meetingIds.value| == 1 then SingleMeeting(meetingIds.value[0])
    else if meetingIds.Some? && meetingIds.value != [] then ProjectWide(if projectName.Some? then projectName.value else "None")
    else if IdGiven(meetingId) then SingleMeeting(meetingId.value)
    else VariousMeetings
  }

  /** The single-meeting header up to the meeting id. */
  const SingleLead: string := "Based on the following meeting transcript chunks, answer the user's question.\n\nContext from Meeting "
  /** The project-wide header up to the project name. */
  const ProjectLead: string := "Based on the following meeting transcript chunks from meetings related to project '"
  /** The project-wide header after the project name. */
  const ProjectTail: string := "', answer the user's question.\n\nContext from meetings:\n"
  /** The header for a search over all meetings. */
  const VariousHeader: string :=
    "Based on the following meeting transcript chunks from various meetings, answer the user's question.\n\nContext from meetings:\n"

  /** The text of the template up to the context: it names the meeting it is scoped to, or the project, right after its fixed lead. */
  function Header(t: Template): (h: string)
    ensures t.SingleMeeting? ==>
      |SingleLead| + |IntToString(t.id)| <= |h| && StartsWith(h, SingleLead)
      && h[|SingleLead|..|SingleLead| + |IntToString(t.id)|] == IntToString(t.id)
    ensures t.ProjectWide? ==>
      |ProjectLead| + |t.projectName| <= |h| && StartsWith(h, ProjectLead)
      && h[|ProjectLead|..|ProjectLead| + |t.projectName|] == t.projectName
  {
    match t
    case SingleMeeting(id) => Framed(SingleLead, IntToString(id), ":\n"); SingleLead + IntToString(id) + ":\n"
    case ProjectWide(name) => Framed(ProjectLead, name, ProjectTail); ProjectLead + name + ProjectTail
    case VariousMeetings => VariousHeader
  }

  lemma Framed(lead: string, mid: string, tail: string)
    ensures var s := lead + mid + tail;
      |lead| + |mid| <= |s| && StartsWith(s, lead) && s[|lead|..|lead| + |mid|] == mid
  {
    var s := lead + mid + tail;
    assert s[..|lead|] == lead;
    assert s[|lead|..|lead| + |mid|] == mid;
  }

  /** The prompt: the template's header, the context verbatim, then the question verbatim. */
  function Prompt(header: string, context: string, question: string): (p: string)
    ensures StartsWith(p, header) && |header| + |context| <= |p|
    ensures p[|header|..|header| + |context|] == context
    ensures EndsWith(p, "\n\nQuestion: " + question + "\n\nAnswer:")
  {
    var tail := "\n\nQuestion: " + question + "\n\nAnswer:";
    ThreeParts(header, context, tail);
    header + context + tail
  }

  lemma ThreeParts(a: string, b: string, c: string)
    ensures var s := a + b + c; s[..|a|] == a && s[|a|..|a| + |b|] == b && s[|s| - |c|..] == c
  {
  }

  /** The label and text of the `i`-th chunk, counting from 1. */
  function Block(r: Retrieved, i: nat): (b: string)
    ensures EndsWith(b, "]:\n" + r.text)
  {
    var tail := "]:\n" + r.text;
    var b := "[Meeting " + (if r.meetingId.Some? then IntToString(r.meetingId.value) else "unknown")
             + ", Chunk " + NatToString(i) + tail;
    assert b[|b| - |tail|..] == tail;
    b
  }

  /** The context parts: chunk `k` labelled with its meeting and the number `k + 1`, in search order. */
  function ContextParts(chunks: seq<Retrieved>): (parts: seq<string>)
    ensures |parts| == |chunks|
    ensures forall k :: 0 <= k < |chunks| ==> parts[k] == Block(chunks[k], k + 1)
  {
    seq(|chunks|, k requires 0 <= k < |chunks| => Block(chunks[k], k + 1))
  }

  /** The loop that numbers the chunks and the join of its parts by blank lines. */
  method BuildContext(chunks: seq<Retrieved>) returns (context: string)
    ensures context == Join(ContextParts(chunks), "\n\n")
  {
    var parts: seq<string> := [];
    var i := 0;
    while i < |chunks|
      invariant 0 <= i <= |chunks|
      invariant |parts| == i
      invariant forall k :: 0 <= k < i ==> parts[k] == Block(chunks[k], k + 1)
    {
      parts := parts + [Block(chunks[i], i + 1)];
      i := i + 1;
    }
    assert parts == ContextParts(chunks);
    context := Join(parts, "\n\n");
  }

  /**
   * The three decisions agree on a project with exactly one meeting and
   * no meeting id: the search is filtered to it, the single-meeting
   * template names it and the history is filed under it.
   */
  lemma OneMeetingProject(meetingId: Option<int>, id: int, projectName: Option<string>)
    requires !IdGiven(meetingId)
    ensures FilterMeetingId(meetingId, Some([id])) == Some(id)
    ensures ChooseTemplate(meetingId, Some([id]), projectName) == SingleMeeting(id)
    ensures HistoryMeetingId(meetingId, Some([id])) == Some(id)
  {
  }

  /**
   * A project with several meetings: the search is not narrowed to one
   * meeting unless a meeting id is given, the prompt is the project
   * template, and the history goes under the given id or the first meeting.
   */
  lemma ManyMeetingProject(meetingId: Option<int>, ids: seq<int>, projectName: string)
    requires |ids| > 1
    ensures FilterMeetingId(meetingId, Some(ids)) == (if IdGiven(meetingId) then meetingId else None)
    ensures ChooseTemplate(meetingId, Some(ids), Some(projectName)) == ProjectWide(projectName)
    ensures HistoryMeetingId(meetingId, Some(ids)) == (if IdGiven(meetingId) then meetingId else Some(ids[0]))
  {
  }

  /** The chunks `search` returns for the question, scoped as above. */
  function ChunksFor(question: string, meetingId: Option<int>, ids: Option<seq<int>>, topK: int,
                     search: SearchCall -> seq<Retrieved>): seq<Retrieved> {
    search(SearchCall(question, FilterMeetingId(meetingId, ids), ids, topK))
  }

  /** The prompt for the question over a context, in the template the scope chooses. */
  function PromptFor(question: string, meetingId: Option<int>, ids: Option<seq<int>>, projectName: Option<string>,
                     context: string): string {
    Prompt(Header(ChooseTemplate(meetingId, ids, projectName)), context, question)
  }

  // ---------------------------------------------------------------- streaming

  /** The text of a sequence of fragments, in order. */
  function Concat(fragments: seq<string>): string {
    if fragments == [] then "" else Concat(fragments[..|fragments| - 1]) + fragments[|fragments| - 1]
  }

  /** Concatenation splits at any point of the fragment sequence. */
  lemma {:induction false} ConcatSplit(a: seq<string>, b: seq<string>)
    ensures Concat(a + b) == Concat(a) + Concat(b)
  {
    if b == [] {
      assert a + b == a;
    } else {
      var b' := b[..|b| - 1];
      assert (a + b)[..|a + b| - 1] == a + b';
      ConcatSplit(a, b');
    }
  }

  /**
   * Whatever the consumer has been shown after any number of fragments is
   * the start of the response that is recorded once the stream ends.
   */
  lemma ShownIsRecordedPrefix(fragments: seq<string>, i: nat)
    requires i <= |fragments|
    ensures StartsWith(Concat(fragments), Concat(fragments[..i]))
    ensures Concat(fragments)[|Concat(fragments[..i])|..] == Concat(fragments[i..])
  {
    ConcatSplit(fragments[..i], fragments[i..]);
    assert fragments[..i] + fragments[i..] == fragments;
  }

  /**
   * The loop of `query_stream` over the generator: each fragment is
   * passed on as it comes and added to the full response.
   */
  method Relay(fragments: seq<string>) returns (yielded: seq<string>, fullResponse: string)
    ensures yielded == fragments && fullResponse == Concat(fragments)
  {
    fullResponse := "";
    yielded := [];
    var i := 0;
    while i < |fragments|
      invariant 0 <= i <= |fragments|
      invariant yielded == fragments[..i]
      invariant fullResponse == Concat(yielded)
    {
      yielded := yielded + [fragments[i]];
      assert yielded[..|yielded| - 1] == fragments[..i];
      fullResponse := fullResponse + fragments[i];
      i := i + 1;
    }
    assert yielded == fragments;
  }

  /** The chatbot and the chat history it has written. */
  class MeetingChatbot {
    var history: seq<HistoryEntry>

    constructor ()
      ensures history == []
    {
      history := [];
    }

    /** `_store_chat_history`: one entry, unless the database write fails, which is logged and swallowed. */
    method StoreChatHistory(question: string, response: string, meetingId: Option<int>, fails: bool)
      modifies this
      ensures history == old(history) + (if fails then [] else [HistoryEntry(meetingId, question, response)])
    {
      if !fails {
        history := history + [HistoryEntry(meetingId, question, response)];
      }
    }

    /**
     * `query`: a named project without meetings, or a search without
     * results, is answered with a fixed reply and nothing is generated or
     * recorded; otherwise the answer is what `generate` gives for the
     * prompt, recorded once when it came back and the write succeeded.
     */
    method Query(question: string, meetingId: Option<int>, projectName: Option<string>, topK: int,
                 lookup: string -> Result<seq<int>>, search: SearchCall -> seq<Retrieved>,
                 generate: string -> Result<string>, historyFails: bool)
      returns (answer: Result<string>)
      modifies this
      ensures var ids := ProjectMeetings(projectName, lookup);
        ids == Some([]) ==> answer == Ok(NoMeetingsReply(projectName.value)) && history == old(history)
      ensures var ids := ProjectMeetings(projectName, lookup);
        var chunks := ChunksFor(question, meetingId, ids, topK, search);
        ids != Some([]) && chunks == [] ==> answer == Ok(NoInformationReply) && history == old(history)
      ensures var ids := ProjectMeetings(projectName, lookup);
        var chunks := ChunksFor(question, meetingId, ids, topK, search);
        ids != Some([]) && chunks != [] ==>
          && answer == generate(PromptFor(question, meetingId, ids, projectName, Join(ContextParts(chunks), "\n\n")))
          && history == old(history) + (if answer.Ok? && !historyFails
                                        then [HistoryEntry(HistoryMeetingId(meetingId, ids), question, answer.value)]
                                        else [])
    {
      var ids := ProjectMeetings(projectName, lookup);
      if ids == Some([]) {
        return Ok(NoMeetingsReply(projectName.value));
      }
      var chunks := ChunksFor(question, meetingId, ids, topK, search);
      if chunks == [] {
        return Ok(NoInformationReply);
      }
      answer := Answer(question, meetingId, ids, projectName, chunks, generate, historyFails);
    }

    /** The part of `query` after retrieval: prompt, generate, record. */
    method Answer(question: string, meetingId: Option<int>, ids: Option<seq<int>>, projectName: Option<string>,
                  chunks: seq<Retrieved>, generate: string -> Result<string>, historyFails: bool)
      returns (answer: Result<string>)
      modifies this
      ensures answer == generate(PromptFor(question, meetingId, ids, projectName, Join(ContextParts(chunks), "\n\n")))
      ensures history == old(history) + (if answer.Ok? && !historyFails
                                         then [HistoryEntry(HistoryMeetingId(meetingId, ids), question, answer.value)]
                                         else [])
    {
      var context := BuildContext(chunks);
      answer := generate(PromptFor(question, meetingId, ids, projectName, context));
      if answer.Ok? {
        StoreChatHistory(question, answer.value, HistoryMeetingId(meetingId, ids), historyFails);
      }
    }

    /**
     * `query_stream`: the fixed replies are yielded alone; otherwise every
     * fragment of the generator is passed on in order, and only once it
     * is exhausted is their concatenation recorded. A generator that
     * raises ends the stream with its exception and records nothing.
     */
    method QueryStream(question: string, meetingId: Option<int>, projectName: Option<string>, topK: int,
                       lookup: string -> Result<seq<int>>, search: SearchCall -> seq<Retrieved>,
                       generateStream: string -> Stream, historyFails: bool)
      returns (yielded: seq<string>, error: Option<string>)
      modifies this
      ensures var ids := ProjectMeetings(projectName, lookup);
        ids == Some([]) ==> yielded == [NoMeetingsReply(projectName.value)] && error.None? && history == old(history)
      ensures var ids := ProjectMeetings(projectName, lookup);
        var chunks := ChunksFor(question, meetingId, ids, topK, search);
        ids != Some([]) && chunks == [] ==> yielded == [NoInformationReply] && error.None? && history == old(history)
      ensures var ids := ProjectMeetings(projectName, lookup);
        var chunks := ChunksFor(question, meetingId, ids, topK, search);
        var s := generateStream(PromptFor(question, meetingId, ids, projectName, Join(ContextParts(chunks), "\n\n")));
        ids != Some([]) && chunks != [] ==>
          && yielded == s.fragments && error == s.error
          && history == old(history) + (if s.error.None? && !historyFails
                                        then [HistoryEntry(HistoryMeetingId(meetingId, ids), question, Concat(yielded))]
                                        else [])
    {
      var ids := ProjectMeetings(projectName, lookup);
      if ids == Some([]) {
        return [NoMeetingsReply(projectName.value)], None;
      }
      var chunks := ChunksFor(question, meetingId, ids, topK, search);
      if chunks == [] {
        return [NoInformationReply], None;
      }
      yielded, error := StreamAnswer(question, meetingId, ids, projectName, chunks, generateStream, historyFails);
    }

    /** The part of `query_stream` after retrieval: prompt, relay the fragments, record. */
    method StreamAnswer(question: string, meetingId: Option<int>, ids: Option<seq<int>>, projectName: Option<string>,
                        chunks: seq<Retrieved>, generateStream: string -> Stream, historyFails: bool)
      returns (yielded: seq<string>, error: Option<string>)
      modifies this
      ensures var s := generateStream(PromptFor(question, meetingId, ids, projectName, Join(ContextParts(chunks), "\n\n")));
        && yielded == s.fragments && error == s.error
        && history == old(history) + (if s.error.None? && !historyFails
                                      then [HistoryEntry(HistoryMeetingId(meetingId, ids), question, Concat(yielded))]
                                      else [])
    {
      var context := BuildContext(chunks);
      var s := generateStream(PromptFor(question, meetingId, ids, projectName, context));
      var fullResponse;
      yielded, fullResponse := Relay(s.fragments);
      error := s.error;
      if error.None? {
        StoreChatHistory(question, fullResponse, HistoryMeetingId(meetingId, ids), historyFails);
      }
    }
  }
}
