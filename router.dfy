/** MasterLINC's intent router: keyword scoring against a fixed table, the
    choice of a primary agent, the static support map and the step plan of
    a new workflow. */
module WorkflowRouter {
  import opened Common

  /** One row of the intent table: an agent and the keywords that vote for it. */
  datatype KeywordProfile = KeywordProfile(agent: string, keywords: seq<string>)

  /** The intent table, in the order the hub scores it. */
  const IntentKeywords: seq<KeywordProfile> := [
    KeywordProfile("doctorlinc", ["doctor", "physician", "medical", "diagnosis", "prescription",
                                  "symptom", "treatment", "clinic", "consultation", "health"]),
    KeywordProfile("nurslinc", ["nurse", "nursing", "care", "medication", "vital signs",
                                "shift", "report", "patient care", "checklist"]),
    KeywordProfile("patientlinc", ["patient", "appointment", "schedule", "education", "health tracking",
                                   "lab results", "medication reminder", "symptoms"]),
    KeywordProfile("bizlinc", ["business", "entrepreneur", "startup", "proposal", "rfp",
                               "market analysis", "etimad", "saudi business"]),
    KeywordProfile("paylinc", ["payment", "billing", "invoice", "financial", "subscription",
                               "stripe", "paypal", "transaction"]),
    KeywordProfile("chatlinc", ["chat", "talk", "conversation", "help", "support",
                                "question", "information"])
  ]

  /** The agent chosen when no keyword matches. */
  const FallbackAgent: string := "chatlinc"

  /** Every workflow is estimated at five minutes. */
  const EstimatedDuration: int := 5

  predicate WellFormed(table: seq<KeywordProfile>)
  {
    forall i :: 0 <= i < |table| ==> |table[i].keywords| > 0
  }

  function Agents(table: seq<KeywordProfile>): (r: seq<string>)
    ensures |r| == |table|
    ensures forall i :: 0 <= i < |table| ==> r[i] == table[i].agent
  {
    seq(|table|, i requires 0 <= i < |table| => table[i].agent)
  }

  // ---------------------------------------------------------------------
  // Scores are exact fractions hits/size, compared by cross-multiplying.

  datatype Fraction = Fraction(num: nat, den: nat)

  /** `a >= b` as rationals (denominators positive). */
  predicate Ge(a: Fraction, b: Fraction)
  {
    a.num * b.den >= b.num * a.den
  }

  /** `a > b` as rationals (denominators positive). */
  predicate Gt(a: Fraction, b: Fraction)
  {
    a.num * b.den > b.num * a.den
  }

  lemma MulMono(x: int, y: int, k: int)
    requires x >= y && k >= 0
    ensures x * k >= y * k
  {
  }

  lemma MulCancel(x: int, y: int, k: int)
    requires k > 0 && x * k >= y * k
    ensures x >= y
  {
  }

  lemma MulCancelStrict(x: int, y: int, k: int)
    requires k > 0 && x * k > y * k
    ensures x > y
  {
  }

  /** Transitivity of the score order when the middle score is at least
      the last one: `a > b >= c` gives `a > c`, and `a >= b >= c` gives `a >= c`. */
  lemma GeTrans(a: Fraction, b: Fraction, c: Fraction)
    requires a.den > 0 && b.den > 0 && c.den > 0
    requires Ge(a, b) && Ge(b, c)
    ensures Ge(a, c)
    ensures Gt(a, b) ==> Gt(a, c)
  {
    MulMono(a.num * b.den, b.num * a.den, c.den);
    MulMono(b.num * c.den, c.num * b.den, a.den);
    assert (a.num * c.den) * b.den >= (c.num * a.den) * b.den by {
      assert (a.num * c.den) * b.den == (a.num * b.den) * c.den;
      assert (b.num * a.den) * c.den == (b.num * c.den) * a.den;
      assert (c.num * a.den) * b.den == (c.num * b.den) * a.den;
    }
    MulCancel(a.num * c.den, c.num * a.den, b.den);
    if Gt(a, b) {
      assert (a.num * b.den) * c.den > (b.num * a.den) * c.den;
      assert (a.num * c.den) * b.den > (c.num * a.den) * b.den by {
        assert (a.num * c.den) * b.den == (a.num * b.den) * c.den;
        assert (b.num * a.den) * c.den == (b.num * c.den) * a.den;
        assert (c.num * a.den) * b.den == (c.num * b.den) * a.den;
      }
      MulCancelStrict(a.num * c.den, c.num * a.den, b.den);
    }
  }

  // ---------------------------------------------------------------------
  // Scoring.

  /** Number of keywords that occur as substrings of `text`. */
  function Hits(keywords: seq<string>, text: string): (n: nat)
    ensures n <= |keywords|
  {
    if |keywords| == 0 then 0
    else Hits(keywords[..|keywords| - 1], text) + (if Contains(text, keywords[|keywords| - 1]) then 1 else 0)
  }

  /** A row scores iff one of its keywords occurs in the text. */
  lemma {:induction false} HitsPositive(keywords: seq<string>, text: string)
    ensures Hits(keywords, text) > 0 <==> exists k :: 0 <= k < |keywords| && Contains(text, keywords[k])
  {
    if |keywords| > 0 {
      var prefix := keywords[..|keywords| - 1];
      HitsPositive(prefix, text);
      assert forall k :: 0 <= k < |prefix| ==> prefix[k] == keywords[k];
    }
  }

  /** Score of table row `i`: its hits over its keyword count. */
  function ScoreOf(table: seq<KeywordProfile>, i: nat, text: string): Fraction
    requires i < |table|
  {
    Fraction(Hits(table[i].keywords, text), |table[i].keywords|)
  }

  /** An agent with at least one match: its table position, name and score. */
  datatype Candidate = Candidate(index: nat, agent: string, score: Fraction)

  /** The candidates among the first `n` table rows, in table order: the
      entries of the `agent_scores` dictionary. */
  function CandidatesUpTo(table: seq<KeywordProfile>, text: string, n: nat): (cs: seq<Candidate>)
    requires n <= |table|
    ensures |cs| <= n
  {
    if n == 0 then []
    else
      var prev := CandidatesUpTo(table, text, n - 1);
      var h := Hits(table[n - 1].keywords, text);
      if h > 0 then prev + [Candidate(n - 1, table[n - 1].agent, ScoreOf(table, n - 1, text))]
      else prev
  }

  function Candidates(table: seq<KeywordProfile>, text: string): seq<Candidate>
  {
    CandidatesUpTo(table, text, |table|)
  }

  /** `c` stands for a matching row among the first `n` of the table. */
  predicate IsCandidateOf(table: seq<KeywordProfile>, text: string, n: nat, c: Candidate)
  {
    c.index < n && c.index < |table| && c.agent == table[c.index].agent
    && c.score == ScoreOf(table, c.index, text) && c.score.num > 0
  }

  /** Every candidate is a matching row of the table, with that row's agent and score. */
  lemma {:induction false} CandidatesSound(table: seq<KeywordProfile>, text: string, n: nat)
    requires n <= |table|
    ensures forall k :: 0 <= k < |CandidatesUpTo(table, text, n)| ==>
      IsCandidateOf(table, text, n, CandidatesUpTo(table, text, n)[k])
  {
    if n > 0 {
      CandidatesSound(table, text, n - 1);
      var prev := CandidatesUpTo(table, text, n - 1);
      var cs := CandidatesUpTo(table, text, n);
      forall k | 0 <= k < |cs|
        ensures IsCandidateOf(table, text, n, cs[k])
      {
        if k < |prev| {
          assert cs[k] == prev[k];
          assert IsCandidateOf(table, text, n - 1, prev[k]);
        }
      }
    }
  }

  /** Candidates appear in table order, each row at most once. */
  lemma {:induction false} CandidatesOrdered(table: seq<KeywordProfile>, text: string, n: nat)
    requires n <= |table|
    ensures forall p, q :: 0 <= p < q < |CandidatesUpTo(table, text, n)| ==>
      CandidatesUpTo(table, text, n)[p].index < CandidatesUpTo(table, text, n)[q].index
  {
    if n > 0 {
      CandidatesOrdered(table, text, n - 1);
      CandidatesSound(table, text, n - 1);
      var prev := CandidatesUpTo(table, text, n - 1);
      var cs := CandidatesUpTo(table, text, n);
      forall p, q | 0 <= p < q < |cs|
        ensures cs[p].index < cs[q].index
      {
        assert cs[p] == prev[p];
        assert IsCandidateOf(table, text, n - 1, prev[p]);
        if q < |prev| {
          assert cs[q] == prev[q];
        }
      }
    }
  }

  /** Every matching row has a candidate. */
  lemma {:induction false} CandidatesComplete(table: seq<KeywordProfile>, text: string, n: nat, i: nat)
    requires i < n <= |table|
    requires Hits(table[i].keywords, text) > 0
    ensures exists k :: 0 <= k < |CandidatesUpTo(table, text, n)| && CandidatesUpTo(table, text, n)[k].index == i
  {
    var prev := CandidatesUpTo(table, text, n - 1);
    var cs := CandidatesUpTo(table, text, n);
    if i == n - 1 {
      assert cs[|prev|].index == i;
    } else {
      CandidatesComplete(table, text, n - 1, i);
      var k :| 0 <= k < |prev| && prev[k].index == i;
      assert cs[k] == prev[k];
    }
  }

  /** Position of the first candidate with the highest score, as Python's
      `max` keeps the first maximal key. */
  function BestIndex(cs: seq<Candidate>): (b: nat)
    requires |cs| > 0
    requires forall k :: 0 <= k < |cs| ==> cs[k].score.den > 0
    ensures b < |cs|
    ensures forall j :: 0 <= j < |cs| ==> Ge(cs[b].score, cs[j].score)
    ensures forall j :: 0 <= j < b ==> Gt(cs[b].score, cs[j].score)
  {
    if |cs| == 1 then 0
    else
      var init := cs[..|cs| - 1];
      assert forall j :: 0 <= j < |init| ==> init[j] == cs[j];
      var p := BestIndex(init);
      var last := |cs| - 1;
      if Gt(cs[last].score, cs[p].score) then
        assert forall j :: 0 <= j < last ==> Gt(cs[last].score, cs[j].score) by {
          forall j | 0 <= j < last
            ensures Gt(cs[last].score, cs[j].score)
          {
            GeTrans(cs[last].score, cs[p].score, cs[j].score);
          }
        }
        last
      else
        p
  }

  /** Table row of the primary agent, or None when no row matched. */
  function Leader(table: seq<KeywordProfile>, text: string): (r: Option<nat>)
    requires WellFormed(table)
    ensures r.Some? ==> r.value < |table| && Hits(table[r.value].keywords, text) > 0
    ensures r.None? <==> forall i :: 0 <= i < |table| ==> Hits(table[i].keywords, text) == 0
  {
    var cs := CandidatesUpTo(table, text, |table|);
    CandidatesSound(table, text, |table|);
    assert forall k :: 0 <= k < |cs| ==> IsCandidateOf(table, text, |table|, cs[k]);
    assert forall k :: 0 <= k < |cs| ==> cs[k].score.den > 0;
    if |cs| == 0 then
      assert forall i :: 0 <= i < |table| ==> Hits(table[i].keywords, text) == 0 by {
        forall i | 0 <= i < |table| && Hits(table[i].keywords, text) > 0
          ensures false
        {
          CandidatesComplete(table, text, |table|, i);
        }
      }
      None
    else
      Some(cs[BestIndex(cs)].index)
  }

  /** A matching row is never outscored by the leader's row, and every
      matching row before the leader scores strictly less. */
  lemma LeaderOutscores(table: seq<KeywordProfile>, text: string, i: nat)
    requires WellFormed(table)
    requires i < |table| && Hits(table[i].keywords, text) > 0
    ensures Leader(table, text).Some?
    ensures var w := Leader(table, text).value;
      Ge(ScoreOf(table, w, text), ScoreOf(table, i, text))
      && (i < w ==> Gt(ScoreOf(table, w, text), ScoreOf(table, i, text)))
  {
    var cs := CandidatesUpTo(table, text, |table|);
    CandidatesSound(table, text, |table|);
    CandidatesOrdered(table, text, |table|);
    CandidatesComplete(table, text, |table|, i);
    var p :| 0 <= p < |cs| && cs[p].index == i;
    var b := BestIndex(cs);
    assert b < p ==> cs[b].index < cs[p].index;
  }

  function PrimaryAgent(intent: string): string
  {
    IntentKeywordsWellFormed();
    match Leader(IntentKeywords, Lower(intent))
    case None => FallbackAgent
    case Some(w) => IntentKeywords[w].agent
  }

  // ---------------------------------------------------------------------
  // Support map and plan.

  const SupportMap: map<string, seq<string>> := map[
    "doctorlinc" := ["nurslinc", "patientlinc"],
    "nurslinc" := ["doctorlinc"],
    "patientlinc" := ["doctorlinc", "nurslinc"],
    "bizlinc" := ["paylinc", "insightlinc"],
    "paylinc" := ["bizlinc"],
    "chatlinc" := []
  ]

  /** `support_map.get(primary, [])`; the request context plays no part. */
  function SupportingAgents(primary: string): (r: seq<string>)
    ensures primary !in r
    ensures primary !in SupportMap ==> r == []
    ensures |r| <= 2
  {
    if primary in SupportMap then SupportMap[primary] else []
  }

  datatype Action = ProcessRequest | SupportProcessing
  datatype StepStatus = Pending | Waiting
  datatype Step = Step(number: int, agent: string, action: Action, status: StepStatus)

  datatype RoutingResult = RoutingResult(
    workflowId: string,
    primaryAgent: string,
    supportingAgents: seq<string>,
    estimatedDuration: int,
    steps: seq<Step>)

  function PlanSteps(primary: string, support: seq<string>): seq<Step>
  {
    [Step(1, primary, ProcessRequest, Pending)]
    + seq(|support|, k requires 0 <= k < |support| => Step(k + 2, support[k], SupportProcessing, Waiting))
  }

  /** `_analyze_and_route` with the fresh workflow id passed in. */
  function Route(intent: string, workflowId: string): RoutingResult
  {
    var primary := PrimaryAgent(intent);
    var support := SupportingAgents(primary);
    RoutingResult(workflowId, primary, support, EstimatedDuration, PlanSteps(primary, support))
  }

  /** The routing computation step by step: the scoring loop, the `max`
      loop and the loop that appends the support steps. */
  method AnalyzeAndRoute(intent: string, workflowId: string) returns (r: RoutingResult)
    ensures r == Route(intent, workflowId)
  {
    var cands := ScoreAgents(IntentKeywords, Lower(intent));
    IntentKeywordsWellFormed();
    CandidatesSound(IntentKeywords, Lower(intent), |IntentKeywords|);
    var primary := FallbackAgent;
    if |cands| > 0 {
      var best := MaxCandidate(cands);
      primary := cands[best].agent;
    }
    var support := SupportingAgents(primary);
    var steps := BuildSteps(primary, support);
    r := RoutingResult(workflowId, primary, support, EstimatedDuration, steps);
  }

  /** `sum(1 for keyword in keywords if keyword in text)`. */
  method CountHits(keywords: seq<string>, text: string) returns (score: nat)
    ensures score == Hits(keywords, text)
  {
    score := 0;
    var j := 0;
    while j < |keywords|
      invariant 0 <= j <= |keywords|
      invariant score == Hits(keywords[..j], text)
    {
      assert keywords[..j + 1][..j] == keywords[..j];
      if Contains(text, keywords[j]) {
        score := score + 1;
      }
      j := j + 1;
    }
    assert keywords[..|keywords|] == keywords;
  }

  /** The scoring loop: agents with at least one match, in table order. */
  method ScoreAgents(table: seq<KeywordProfile>, text: string) returns (cands: seq<Candidate>)
    ensures cands == Candidates(table, text)
  {
    cands := [];
    var i := 0;
    while i < |table|
      invariant 0 <= i <= |table|
      invariant cands == CandidatesUpTo(table, text, i)
    {
      var score := CountHits(table[i].keywords, text);
      if score > 0 {
        cands := cands + [Candidate(i, table[i].agent, ScoreOf(table, i, text))];
      }
      i := i + 1;
    }
  }

  /** Python's `max` over the candidates: the running best is replaced only
      by a strictly greater score. */
  method MaxCandidate(cands: seq<Candidate>) returns (best: nat)
    requires |cands| > 0
    requires forall k :: 0 <= k < |cands| ==> cands[k].score.den > 0
    ensures best == BestIndex(cands)
  {
    best := 0;
    var k := 1;
    while k < |cands|
      invariant 1 <= k <= |cands|
      invariant best == BestIndex(cands[..k])
    {
      assert cands[..k + 1][..k] == cands[..k];
      if Gt(cands[k].score, cands[best].score) {
        best := k;
      }
      k := k + 1;
    }
    assert cands[..|cands|] == cands;
  }

  /** The plan: step 1 for the primary, then one waiting step per supporter. */
  method BuildSteps(primary: string, support: seq<string>) returns (steps: seq<Step>)
    ensures steps == PlanSteps(primary, support)
  {
    steps := [Step(1, primary, ProcessRequest, Pending)];
    var s := 0;
    while s < |support|
      invariant 0 <= s <= |support|
      invariant steps == PlanSteps(primary, support[..s])
    {
      steps := steps + [Step(s + 2, support[s], SupportProcessing, Waiting)];
      s := s + 1;
    }
    assert support[..|support|] == support;
  }

  // ---------------------------------------------------------------------
  // Properties of the router.

  lemma IntentKeywordsWellFormed()
    ensures WellFormed(IntentKeywords)
    ensures Distinct(Agents(IntentKeywords))
  {
  }

  /** The primary agent is always one of the six table agents. */
  lemma PrimaryIsTableAgent(intent: string)
    ensures PrimaryAgent(intent) in Agents(IntentKeywords)
  {
    IntentKeywordsWellFormed();
    var r := Leader(IntentKeywords, Lower(intent));
    if r.Some? {
      assert Agents(IntentKeywords)[r.value] == IntentKeywords[r.value].agent;
    } else {
      assert Agents(IntentKeywords)[5] == FallbackAgent;
    }
  }

  /** No keyword in the case-folded intent: the request goes to chatlinc. */
  lemma NoMatchFallsBack(intent: string)
    requires forall i, k :: 0 <= i < |IntentKeywords| && 0 <= k < |IntentKeywords[i].keywords| ==>
      !Contains(Lower(intent), IntentKeywords[i].keywords[k])
    ensures PrimaryAgent(intent) == FallbackAgent
  {
    IntentKeywordsWellFormed();
    forall i | 0 <= i < |IntentKeywords|
      ensures Hits(IntentKeywords[i].keywords, Lower(intent)) == 0
    {
      HitsPositive(IntentKeywords[i].keywords, Lower(intent));
    }
  }

  /** Whenever some agent matched, the primary is the agent of a matching
      row whose score is at least every matching row's score and strictly
      above every matching row before it. */
  lemma PrimaryOutscores(intent: string, i: nat)
    requires i < |IntentKeywords|
    requires Hits(IntentKeywords[i].keywords, Lower(intent)) > 0
    ensures WellFormed(IntentKeywords)
    ensures var text := Lower(intent);
      var leader := Leader(IntentKeywords, text);
      leader.Some?
      && PrimaryAgent(intent) == IntentKeywords[leader.value].agent
      && Hits(IntentKeywords[leader.value].keywords, text) > 0
      && Ge(ScoreOf(IntentKeywords, leader.value, text), ScoreOf(IntentKeywords, i, text))
      && (i < leader.value ==> Gt(ScoreOf(IntentKeywords, leader.value, text), ScoreOf(IntentKeywords, i, text)))
  {
    IntentKeywordsWellFormed();
    LeaderOutscores(IntentKeywords, Lower(intent), i);
  }

  /** Supporting agents come from the static map and never include the
      primary; the plan has one step per agent, numbered from 1. */
  lemma PlanShape(intent: string, workflowId: string)
    ensures var r := Route(intent, workflowId);
      r.workflowId == workflowId
      && r.estimatedDuration == 5
      && r.primaryAgent !in r.supportingAgents
      && |r.steps| == 1 + |r.supportingAgents|
      && r.steps[0] == Step(1, r.primaryAgent, ProcessRequest, Pending)
      && forall k :: 0 <= k < |r.supportingAgents| ==>
           r.steps[k + 1] == Step(k + 2, r.supportingAgents[k], SupportProcessing, Waiting)
  {
  }
}
