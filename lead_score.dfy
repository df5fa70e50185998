/**
 * `run_lead_score_flow`, the placeholder lead scorer behind the
 * `crewai.run_lead_score_flow` action: it scores at most five leads, the
 * lead with index `i` scoring `max(0, 100 - i)`, each tagged with the CSV
 * path it was asked to read (the file itself is never opened).
 */
module LeadScore {
  /** One entry of `scored_leads`. */
  datatype ScoredLead = ScoredLead(id: int, score: int, source: string)

  /** The returned dict, `{"scored_leads": [...]}`. */
  datatype LeadScores = LeadScores(scoredLeads: seq<ScoredLead>)

  /** The most leads the placeholder scores. */
  const MaxScored := 5

  /** `len(range(min(max_leads, 5)))`: a non-positive limit scores nothing. */
  function ScoredCount(maxLeads: int): (n: nat)
    ensures n <= MaxScored
    ensures maxLeads <= 0 ==> n == 0
    ensures 0 <= maxLeads <= MaxScored ==> n == maxLeads
    ensures maxLeads >= MaxScored ==> n == MaxScored
  {
    var limit := if maxLeads < MaxScored then maxLeads else MaxScored;
    if limit <= 0 then 0 else limit
  }

  /**
   * `run_lead_score_flow`: the leads with ids 0 to n-1, in order, with
   * scores between 0 and 100 that fall by one per lead, all tagged with
   * `leadsCsvPath`.
   */
  function RunLeadScoreFlow(leadsCsvPath: string, maxLeads: int): (r: LeadScores)
    ensures |r.scoredLeads| == ScoredCount(maxLeads)
    ensures forall i :: 0 <= i < |r.scoredLeads| ==>
      && r.scoredLeads[i].id == i
      && r.scoredLeads[i].score == (if 100 - i < 0 then 0 else 100 - i)
      && 0 <= r.scoredLeads[i].score <= 100
      && r.scoredLeads[i].source == leadsCsvPath
  {
    LeadScores(seq(ScoredCount(maxLeads), idx => ScoredLead(idx, if 100 - idx < 0 then 0 else 100 - idx, leadsCsvPath)))
  }

  /**
   * The ids increase and the scores decrease strictly along the list, so the
   * list is already ranked best first; every score is at least 96.
   */
  lemma LeadsRanked(leadsCsvPath: string, maxLeads: int)
    ensures var leads := RunLeadScoreFlow(leadsCsvPath, maxLeads).scoredLeads;
      && (forall i, j :: 0 <= i < j < |leads| ==> leads[i].id < leads[j].id && leads[i].score > leads[j].score)
      && (forall i :: 0 <= i < |leads| ==> 100 - MaxScored < leads[i].score)
  {
    var leads := RunLeadScoreFlow(leadsCsvPath, maxLeads).scoredLeads;
    forall i, j | 0 <= i < j < |leads|
      ensures leads[i].id < leads[j].id && leads[i].score > leads[j].score
    {
      assert leads[i].score == 100 - i && leads[j].score == 100 - j;
    }
  }

  /** Raising the limit only appends leads: the list for a smaller limit is a prefix. */
  lemma LeadsPrefix(leadsCsvPath: string, m: int, n: int)
    requires m <= n
    ensures RunLeadScoreFlow(leadsCsvPath, m).scoredLeads <= RunLeadScoreFlow(leadsCsvPath, n).scoredLeads
  {
    var a := RunLeadScoreFlow(leadsCsvPath, m).scoredLeads;
    var b := RunLeadScoreFlow(leadsCsvPath, n).scoredLeads;
    assert a == b[..|a|];
  }
}
