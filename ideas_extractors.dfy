/**
 * `ExternalIdeasScopeExtractor.extract` and `IdeasProposalsExtractor.extract`
 * (backend/extractors/): the ideas the model reports, one record per dict
 * item, every field copied or defaulted. Making a record never raises, so
 * a list answer keeps every dict item.
 */
module ExternalIdeasScope {
  import opened Wrappers
  import opened JsonValues
  import opened Extraction

  datatype ScopeIdea = ScopeIdea(
    idea: Json, description: Json, scope: Json, feasibility: Json,
    potentialValue: Json, suggestedBy: Json, relatedTo: Json)

  /** A dict answer lists its ideas under the first of these keys present; otherwise there are none. */
  const IdeaKeys: seq<string> := ["ideas", "scope", "external_ideas", "data"]

  function NormaliseIdea(d: map<string, Json>): Result<ScopeIdea> {
    Ok(ScopeIdea(
      Get(d, "idea", JStr("")),
      Get(d, "description", JStr("")),
      Get(d, "scope", JStr("")),
      Get(d, "feasibility", JStr("medium")),
      Get(d, "potential_value", JStr("")),
      Get(d, "suggested_by", JStr("")),
      Get(d, "related_to", JStr(""))))
  }

  /** Every field is copied when present and defaulted when absent; feasibility defaults to "medium". */
  lemma NormaliseIdeaFields(d: map<string, Json>)
    ensures NormaliseIdea(d).Ok?
    ensures var r := NormaliseIdea(d).value;
      && r.idea == (if "idea" in d then d["idea"] else JStr(""))
      && r.description == (if "description" in d then d["description"] else JStr(""))
      && r.scope == (if "scope" in d then d["scope"] else JStr(""))
      && r.feasibility == (if "feasibility" in d then d["feasibility"] else JStr("medium"))
      && r.potentialValue == (if "potential_value" in d then d["potential_value"] else JStr(""))
      && r.suggestedBy == (if "suggested_by" in d then d["suggested_by"] else JStr(""))
      && r.relatedTo == (if "related_to" in d then d["related_to"] else JStr(""))
  {
  }

  function ExtractSpec(response: Response): seq<ScopeIdea> {
    Extracted(response, IdeaKeys, false, NormaliseIdea)
  }

  method ExtractIdeas(response: Response) returns (ideas: seq<ScopeIdea>)
    ensures ideas == ExtractSpec(response)
  {
    ideas := Extract(response, IdeaKeys, false, NormaliseIdea);
  }

  /** A list answer gives exactly one idea per dict item, in order. */
  lemma ExtractList(items: seq<Json>)
    ensures |ExtractSpec(Ok(JArr(items)))| == |DictItems(items)|
    ensures forall k :: 0 <= k < |DictItems(items)| ==>
      ExtractSpec(Ok(JArr(items)))[k] == NormaliseIdea(DictItems(items)[k]).value
  {
    ExtractedList(items, IdeaKeys, false, NormaliseIdea);
  }
}

module IdeasProposals {
  import opened Wrappers
  import opened JsonValues
  import opened Extraction

  datatype Proposal = Proposal(
    idea: Json, description: Json, potentialValue: Json, feasibility: Json,
    suggestedBy: Json, relatedProject: Json)

  /** A dict answer lists its ideas under the first of these keys present; otherwise there are none. */
  const ProposalKeys: seq<string> := ["ideas", "proposals", "data"]

  function NormaliseProposal(d: map<string, Json>): Result<Proposal> {
    Ok(Proposal(
      Get(d, "idea", JStr("")),
      Get(d, "description", JStr("")),
      Get(d, "potential_value", JStr("")),
      Get(d, "feasibility", JStr("medium")),
      Get(d, "suggested_by", JStr("")),
      Get(d, "related_project", JStr(""))))
  }

  /** Every field is copied when present and defaulted when absent; feasibility defaults to "medium". */
  lemma NormaliseProposalFields(d: map<string, Json>)
    ensures NormaliseProposal(d).Ok?
    ensures var r := NormaliseProposal(d).value;
      && r.idea == (if "idea" in d then d["idea"] else JStr(""))
      && r.description == (if "description" in d then d["description"] else JStr(""))
      && r.potentialValue == (if "potential_value" in d then d["potential_value"] else JStr(""))
      && r.feasibility == (if "feasibility" in d then d["feasibility"] else JStr("medium"))
      && r.suggestedBy == (if "suggested_by" in d then d["suggested_by"] else JStr(""))
      && r.relatedProject == (if "related_project" in d then d["related_project"] else JStr(""))
  {
  }

  function ExtractSpec(response: Response): seq<Proposal> {
    Extracted(response, ProposalKeys, false, NormaliseProposal)
  }

  method ExtractProposals(response: Response) returns (ideas: seq<Proposal>)
    ensures ideas == ExtractSpec(response)
  {
    ideas := Extract(response, ProposalKeys, false, NormaliseProposal);
  }

  /** A list answer gives exactly one idea per dict item, in order. */
  lemma ExtractList(items: seq<Json>)
    ensures |ExtractSpec(Ok(JArr(items)))| == |DictItems(items)|
    ensures forall k :: 0 <= k < |DictItems(items)| ==>
      ExtractSpec(Ok(JArr(items)))[k] == NormaliseProposal(DictItems(items)[k]).value
  {
    ExtractedList(items, ProposalKeys, false, NormaliseProposal);
  }
}
