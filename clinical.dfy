/** DoctorLINC's rule-based clinical helpers: pulling the chief complaint,
    findings and recommendations out of a free-text note, grading the
    severity of an assessment, annotating Arabic transcriptions, the
    symptom lookup table, the patient summary and prescription shaping.

    Each helper is a pure specification function; where the agent builds
    its answer with a loop, a method performs that loop and is proved to
    compute the function. Case folding is `Common.Lower`. */
module DoctorLinc {
  import opened Common

  // ---------------------------------------------------------------------
  // Keyword search.

  /** Keywords that can be searched for sentence by sentence: non-empty,
      free of the sentence separator, starting and ending with a
      non-space character. */
  predicate SearchableKeywords(keywords: seq<string>)
  {
    forall k :: 0 <= k < |keywords| ==> Searchable(keywords[k])
  }

  predicate Searchable(keyword: string)
  {
    |keyword| > 0 && '.' !in keyword && !IsSpace(keyword[0]) && !IsSpace(keyword[|keyword| - 1])
  }

  /** A searchable keyword occurring in the folded text occurs in one of its
      sentences, and still does once that sentence is stripped. */
  lemma SentenceWithKeyword(content: string, keyword: string)
    requires Searchable(keyword)
    requires Contains(Lower(content), keyword)
    ensures FirstSentenceWith(Split(content, '.'), keyword).Some?
    ensures Contains(Lower(Strip(Split(content, '.')[FirstSentenceWith(Split(content, '.'), keyword).value])), keyword)
  {
    var parts := Split(content, '.');
    SplitKeepsOccurrence(content, '.', keyword);
    var p :| p in parts && Contains(Lower(p), keyword);
    var j :| 0 <= j < |parts| && parts[j] == p;
    var first := FirstSentenceWith(parts, keyword).value;
    StripKeepsOccurrence(parts[first], keyword);
  }

  /** Index of the first keyword occurring in `text`. */
  function FirstContained(keywords: seq<string>, text: string): (r: Option<nat>)
    ensures r.Some? ==> (r.value < |keywords| && Contains(text, keywords[r.value])
      && forall k :: 0 <= k < r.value ==> !Contains(text, keywords[k]))
    ensures r.None? ==> forall k :: 0 <= k < |keywords| ==> !Contains(text, keywords[k])
  {
    if |keywords| == 0 then None
    else if Contains(text, keywords[0]) then Some(0)
    else match FirstContained(keywords[1..], text)
      case None => None
      case Some(k) => Some(k + 1)
  }

  /** The first sentence whose case-folded text contains `keyword`. */
  function FirstSentenceWith(sentences: seq<string>, keyword: string): (r: Option<nat>)
    ensures r.Some? ==> (r.value < |sentences| && Contains(Lower(sentences[r.value]), keyword)
      && forall j :: 0 <= j < r.value ==> !Contains(Lower(sentences[j]), keyword))
    ensures r.None? ==> forall j :: 0 <= j < |sentences| ==> !Contains(Lower(sentences[j]), keyword)
  {
    if |sentences| == 0 then None
    else if Contains(Lower(sentences[0]), keyword) then Some(0)
    else match FirstSentenceWith(sentences[1..], keyword)
      case None => None
      case Some(j) => Some(j + 1)
  }

  // ---------------------------------------------------------------------
  // `_extract_chief_complaint`.

  const ComplaintKeywords: seq<string> := ["complains of", "presents with", "chief complaint", "يشكو من"]
  const NotStated: string := "Not clearly stated"

  /** The agent's search: keyword by keyword, a keyword found in the
      folded note selects the first sentence that contains it. */
  function ComplaintFrom(keywords: seq<string>, content: string): string
  {
    if |keywords| == 0 then NotStated
    else if Contains(Lower(content), keywords[0]) then
      match FirstSentenceWith(Split(content, '.'), keywords[0])
      case Some(j) => Strip(Split(content, '.')[j])
      case None => ComplaintFrom(keywords[1..], content)
    else ComplaintFrom(keywords[1..], content)
  }

  function ChiefComplaint(content: string): string
  {
    ComplaintFrom(ComplaintKeywords, content)
  }

  /** When no keyword occurs the answer is the placeholder; otherwise it is
      the stripped first sentence containing the first keyword that occurs,
      and that sentence always exists. */
  lemma {:induction false} ComplaintFromFirst(keywords: seq<string>, content: string)
    requires SearchableKeywords(keywords)
    ensures FirstContained(keywords, Lower(content)).None? ==> ComplaintFrom(keywords, content) == NotStated
    ensures FirstContained(keywords, Lower(content)).Some? ==>
      (var k := FirstContained(keywords, Lower(content)).value;
       FirstSentenceWith(Split(content, '.'), keywords[k]).Some?
       && ComplaintFrom(keywords, content)
          == Strip(Split(content, '.')[FirstSentenceWith(Split(content, '.'), keywords[k]).value])
       && Contains(Lower(ComplaintFrom(keywords, content)), keywords[k]))
  {
    if |keywords| > 0 {
      if Contains(Lower(content), keywords[0]) {
        SentenceWithKeyword(content, keywords[0]);
      } else {
        assert SearchableKeywords(keywords[1..]) by {
          forall k | 0 <= k < |keywords[1..]|
            ensures keywords[1..][k] == keywords[k + 1]
          {
          }
        }
        ComplaintFromFirst(keywords[1..], content);
      }
    }
  }

  lemma ComplaintKeywordsSearchable()
    ensures SearchableKeywords(ComplaintKeywords)
  {
  }

  /** `_extract_chief_complaint` answers "Not clearly stated" exactly when no
      complaint keyword occurs in the case-folded note; otherwise the answer
      is the stripped first sentence (original case) containing the first
      keyword that occurs. */
  lemma ChiefComplaintSpec(content: string)
    ensures ChiefComplaint(content) == NotStated
      <==> forall k :: 0 <= k < |ComplaintKeywords| ==> !Contains(Lower(content), ComplaintKeywords[k])
    ensures FirstContained(ComplaintKeywords, Lower(content)).Some? ==>
      (var k := FirstContained(ComplaintKeywords, Lower(content)).value;
       var parts := Split(content, '.');
       FirstSentenceWith(parts, ComplaintKeywords[k]).Some?
       && ChiefComplaint(content) == Strip(parts[FirstSentenceWith(parts, ComplaintKeywords[k]).value]))
  {
    ComplaintKeywordsSearchable();
    ComplaintFromFirst(ComplaintKeywords, content);
    if FirstContained(ComplaintKeywords, Lower(content)).Some? {
      var k := FirstContained(ComplaintKeywords, Lower(content)).value;
      PlaceholderHasNoKeyword(k);
    }
  }

  /** The folded placeholder contains none of the complaint keywords. */
  lemma PlaceholderHasNoKeyword(k: nat)
    requires k < |ComplaintKeywords|
    ensures !Contains(Lower(NotStated), ComplaintKeywords[k])
  {
    var folded := Lower(NotStated);
    assert folded == "not clearly stated";
    if k == 0 {
      MissingCharNotContained(folded, ComplaintKeywords[0], 2);
    } else if k == 1 {
      MissingCharNotContained(folded, ComplaintKeywords[1], 0);
    } else if k == 2 {
      MissingCharNotContained(folded, ComplaintKeywords[2], 1);
    } else {
      MissingCharNotContained(folded, ComplaintKeywords[3], 0);
    }
  }

  method ExtractChiefComplaint(content: string) returns (r: string)
    ensures r == ChiefComplaint(content)
  {
    r := SearchComplaint(ComplaintKeywords, content);
  }

  /** The agent's loops, for any keyword list. */
  method SearchComplaint(keywords: seq<string>, content: string) returns (r: string)
    ensures r == ComplaintFrom(keywords, content)
  {
    var i := 0;
    while i < |keywords|
      invariant 0 <= i <= |keywords|
      invariant ComplaintFrom(keywords[i..], content) == ComplaintFrom(keywords, content)
    {
      var keyword := keywords[i];
      if Contains(Lower(content), keyword) {
        var sentences := Split(content, '.');
        var j := 0;
        while j < |sentences|
          invariant 0 <= j <= |sentences|
          invariant forall m :: 0 <= m < j ==> !Contains(Lower(sentences[m]), keyword)
        {
          if Contains(Lower(sentences[j]), keyword) {
            assert FirstSentenceWith(sentences, keyword) == Some(j);
            return Strip(sentences[j]);
          }
          j := j + 1;
        }
      }
      assert keywords[i..][1..] == keywords[i + 1..];
      i := i + 1;
    }
    return NotStated;
  }

  // ---------------------------------------------------------------------
  // `_extract_clinical_findings`.

  const ClinicalTerms: seq<string> :=
    ["blood pressure", "temperature", "heart rate", "respiratory rate", "ضغط الدم", "درجة الحرارة", "معدل النبض"]
  const Documented: string := "Documented: "

  /** "Documented: " + each term that occurs in `text`, in table order. */
  function FindingsFrom(terms: seq<string>, text: string): (r: seq<string>)
    ensures |r| <= |terms|
  {
    if |terms| == 0 then []
    else
      var last := terms[|terms| - 1];
      FindingsFrom(terms[..|terms| - 1], text) + (if Contains(text, last) then [Documented + last] else [])
  }

  function ClinicalFindings(content: string): seq<string>
  {
    FindingsFrom(ClinicalTerms, Lower(content))
  }

  lemma PrefixCancel(p: string, x: string, y: string)
    ensures p + x == p + y <==> x == y
  {
    if p + x == p + y {
      assert (p + x)[|p|..] == x;
      assert (p + y)[|p|..] == y;
    }
  }

  /** A term is reported exactly when it is in the table and occurs in the text. */
  lemma {:induction false} FindingsMembership(terms: seq<string>, text: string, t: string)
    ensures Documented + t in FindingsFrom(terms, text) <==> t in terms && Contains(text, t)
  {
    if |terms| > 0 {
      var init := terms[..|terms| - 1];
      var last := terms[|terms| - 1];
      assert terms == init + [last];
      FindingsMembership(init, text, t);
      PrefixCancel(Documented, t, last);
    }
  }

  /** Distinct terms give distinct findings. */
  lemma {:induction false} FindingsDistinct(terms: seq<string>, text: string)
    requires Distinct(terms)
    ensures Distinct(FindingsFrom(terms, text))
  {
    if |terms| > 0 {
      var init := terms[..|terms| - 1];
      var last := terms[|terms| - 1];
      assert Distinct(init);
      FindingsDistinct(init, text);
      FindingsMembership(init, text, last);
      assert last !in init;
    }
  }

  lemma ClinicalTermsDistinct()
    ensures Distinct(ClinicalTerms)
  {
    assert ShapeKeys(ClinicalTerms) == [14098111, 11116112, 10104114, 16114112, 9590032, 13584577, 11606604];
    DistinctByKey(ClinicalTerms);
  }

  /** `_extract_clinical_findings`: at most seven findings, none repeated,
      one exactly for each term that occurs in the case-folded note. */
  lemma ClinicalFindingsSpec(content: string)
    ensures |ClinicalFindings(content)| <= 7
    ensures Distinct(ClinicalFindings(content))
    ensures forall t :: Documented + t in ClinicalFindings(content) <==> t in ClinicalTerms && Contains(Lower(content), t)
  {
    ClinicalTermsDistinct();
    FindingsDistinct(ClinicalTerms, Lower(content));
    forall t
      ensures Documented + t in ClinicalFindings(content) <==> t in ClinicalTerms && Contains(Lower(content), t)
    {
      FindingsMembership(ClinicalTerms, Lower(content), t);
    }
  }

  method ExtractClinicalFindings(content: string) returns (findings: seq<string>)
    ensures findings == ClinicalFindings(content)
  {
    findings := CollectFindings(ClinicalTerms, content);
  }

  /** The agent's loop, for any term list. */
  method CollectFindings(terms: seq<string>, content: string) returns (findings: seq<string>)
    ensures findings == FindingsFrom(terms, Lower(content))
  {
    findings := [];
    var folded := Lower(content);
    for i := 0 to |terms|
      invariant findings == FindingsFrom(terms[..i], folded)
    {
      var term := terms[i];
      assert terms[..i + 1][..i] == terms[..i];
      if Contains(folded, term) {
        findings := findings + [Documented + term];
      }
    }
    assert terms[..|terms|] == terms;
  }

  // ---------------------------------------------------------------------
  // `_extract_recommendations`.

  const RecommendationKeywords: seq<string> := ["recommend", "suggest", "prescribe", "follow up", "أوصي", "اقترح"]

  predicate Recommends(keywords: seq<string>, sentence: string)
  {
    FirstContained(keywords, Lower(sentence)).Some?
  }

  /** Each sentence that contains a keyword, stripped, in order. */
  function RecommendationsFrom(keywords: seq<string>, sentences: seq<string>): (r: seq<string>)
    ensures |r| <= |sentences|
  {
    if |sentences| == 0 then []
    else
      var last := sentences[|sentences| - 1];
      RecommendationsFrom(keywords, sentences[..|sentences| - 1])
        + (if Recommends(keywords, last) then [Strip(last)] else [])
  }

  function Recommendations(content: string): seq<string>
  {
    RecommendationsFrom(RecommendationKeywords, Split(content, '.'))
  }

  lemma RecommendationKeywordsSearchable()
    ensures SearchableKeywords(RecommendationKeywords)
  {
  }

  /** `_extract_recommendations`: one entry at most per sentence; every entry
      is a stripped sentence that recommends, and still contains a keyword once
      case-folded; every recommending sentence is reported. */
  lemma RecommendationsSpec(content: string)
    ensures |Recommendations(content)| <= |Split(content, '.')|
    ensures forall k :: 0 <= k < |Recommendations(content)| ==>
      exists j :: 0 <= j < |Split(content, '.')| && Recommends(RecommendationKeywords, Split(content, '.')[j])
        && Recommendations(content)[k] == Strip(Split(content, '.')[j])
    ensures forall k :: 0 <= k < |Recommendations(content)| ==>
      exists m :: 0 <= m < |RecommendationKeywords| && Contains(Lower(Recommendations(content)[k]), RecommendationKeywords[m])
    ensures forall j :: (0 <= j < |Split(content, '.')| && Recommends(RecommendationKeywords, Split(content, '.')[j])
      ==> Strip(Split(content, '.')[j]) in Recommendations(content))
  {
    assert Recommendations(content) == RecommendationsFrom(RecommendationKeywords, Split(content, '.'));
    forall k | 0 <= k < |Recommendations(content)|
      ensures exists j ::
                0 <= j < |Split(content, '.')| && Recommends(RecommendationKeywords, Split(content, '.')[j])
                && Recommendations(content)[k] == Strip(Split(content, '.')[j])
    {
      RecommendationsSound(RecommendationKeywords, Split(content, '.'));
      var j :| 0 <= j < |Split(content, '.')| && Recommends(RecommendationKeywords, Split(content, '.')[j])
        && RecommendationsFrom(RecommendationKeywords, Split(content, '.'))[k] == Strip(Split(content, '.')[j]);
      assert Recommendations(content)[k] == Strip(Split(content, '.')[j]);
    }
    assert forall k :: 0 <= k < |Recommendations(content)| ==>
      exists m :: 0 <= m < |RecommendationKeywords| && Contains(Lower(Recommendations(content)[k]), RecommendationKeywords[m])
    by {
      RecommendationKeywordsSearchable();
      RecommendationsKeepKeyword(RecommendationKeywords, Split(content, '.'));
    }
    forall j | 0 <= j < |Split(content, '.')| && Recommends(RecommendationKeywords, Split(content, '.')[j])
      ensures Strip(Split(content, '.')[j]) in Recommendations(content)
    {
      RecommendationsComplete(RecommendationKeywords, Split(content, '.'), j);
    }
  }

  lemma {:induction false} RecommendationsKeepKeyword(keywords: seq<string>, sentences: seq<string>)
    requires SearchableKeywords(keywords)
    ensures forall k :: 0 <= k < |RecommendationsFrom(keywords, sentences)| ==>
      exists m :: 0 <= m < |keywords| && Contains(Lower(RecommendationsFrom(keywords, sentences)[k]), keywords[m])
  {
    if |sentences| > 0 {
      var init := sentences[..|sentences| - 1];
      var last := sentences[|sentences| - 1];
      RecommendationsKeepKeyword(keywords, init);
      var rest := RecommendationsFrom(keywords, init);
      var r := RecommendationsFrom(keywords, sentences);
      assert r == rest + (if Recommends(keywords, last) then [Strip(last)] else []);
      forall k | 0 <= k < |r|
        ensures exists m :: 0 <= m < |keywords| && Contains(Lower(r[k]), keywords[m])
      {
        if k < |rest| {
          assert r[k] == rest[k];
        } else {
          StrippedSentenceKeepsKeyword(keywords, last);
          var m := FirstContained(keywords, Lower(last)).value;
          assert Contains(Lower(r[k]), keywords[m]);
        }
      }
    } else {
      assert RecommendationsFrom(keywords, sentences) == [];
    }
  }

  /** Every entry is the stripped form of a sentence with a keyword. */
  lemma {:induction false} RecommendationsSound(keywords: seq<string>, sentences: seq<string>)
    ensures forall k :: 0 <= k < |RecommendationsFrom(keywords, sentences)| ==>
      exists j :: 0 <= j < |sentences| && Recommends(keywords, sentences[j])
        && RecommendationsFrom(keywords, sentences)[k] == Strip(sentences[j])
  {
    if |sentences| > 0 {
      var init := sentences[..|sentences| - 1];
      var last := sentences[|sentences| - 1];
      RecommendationsSound(keywords, init);
      var rest := RecommendationsFrom(keywords, init);
      var r := RecommendationsFrom(keywords, sentences);
      assert r == rest + (if Recommends(keywords, last) then [Strip(last)] else []);
      forall k | 0 <= k < |r|
        ensures exists j :: 0 <= j < |sentences| && Recommends(keywords, sentences[j]) && r[k] == Strip(sentences[j])
      {
        if k < |rest| {
          var j :| 0 <= j < |init| && Recommends(keywords, init[j]) && rest[k] == Strip(init[j]);
          assert sentences[j] == init[j] && r[k] == rest[k];
        } else {
          assert Recommends(keywords, last) && r[k] == Strip(last);
          var j := |sentences| - 1;
          assert Recommends(keywords, sentences[j]) && r[k] == Strip(sentences[j]);
        }
      }
    } else {
      assert RecommendationsFrom(keywords, sentences) == [];
    }
  }

  /** Every sentence with a keyword is reported, stripped. */
  lemma {:induction false} RecommendationsComplete(keywords: seq<string>, sentences: seq<string>, j: int)
    requires 0 <= j < |sentences| && Recommends(keywords, sentences[j])
    ensures Strip(sentences[j]) in RecommendationsFrom(keywords, sentences)
  {
    var init := sentences[..|sentences| - 1];
    if j < |sentences| - 1 {
      assert init[j] == sentences[j];
      RecommendationsComplete(keywords, init, j);
    }
  }

  lemma StrippedSentenceKeepsKeyword(keywords: seq<string>, sentence: string)
    requires SearchableKeywords(keywords)
    requires Recommends(keywords, sentence)
    ensures var m := FirstContained(keywords, Lower(sentence)).value;
      m < |keywords| && Contains(Lower(Strip(sentence)), keywords[m])
  {
    var m := FirstContained(keywords, Lower(sentence)).value;
    assert Searchable(keywords[m]);
    StripKeepsOccurrence(sentence, keywords[m]);
  }

  method ExtractRecommendations(content: string) returns (recommendations: seq<string>)
    ensures recommendations == Recommendations(content)
  {
    recommendations := CollectRecommendations(RecommendationKeywords, content);
  }

  /** The agent's loops, for any keyword list. */
  method CollectRecommendations(keywords: seq<string>, content: string) returns (recommendations: seq<string>)
    ensures recommendations == RecommendationsFrom(keywords, Split(content, '.'))
  {
    recommendations := [];
    var sentences := Split(content, '.');
    var i := 0;
    while i < |sentences|
      invariant 0 <= i <= |sentences|
      invariant recommendations == RecommendationsFrom(keywords, sentences[..i])
    {
      var sentence := sentences[i];
      assert sentences[..i + 1][..i] == sentences[..i];
      var k := 0;
      while k < |keywords|
        invariant 0 <= k <= |keywords|
        invariant recommendations == RecommendationsFrom(keywords, sentences[..i])
        invariant forall m :: 0 <= m < k ==> !Contains(Lower(sentence), keywords[m])
      {
        if Contains(Lower(sentence), keywords[k]) {
          recommendations := recommendations + [Strip(sentence)];
          break;
        }
        k := k + 1;
      }
      i := i + 1;
    }
    assert sentences[..|sentences|] == sentences;
  }

  // ---------------------------------------------------------------------
  // `_assess_severity`.

  const UrgentKeywords: seq<string> := ["severe", "acute", "emergency", "urgent", "شديد", "طارئ"]

  /** The assessment text: "" when absent; a value without `lower` (null,
      a number, a list, an object) raises. */
  function AssessmentText(soap: map<string, Value>): (r: Result<string, string>)
    ensures "assessment" !in soap ==> r == Ok("")
    ensures "assessment" in soap && soap["assessment"].Str? ==> r == Ok(soap["assessment"].s)
    ensures "assessment" in soap && !soap["assessment"].Str? ==> r.Err?
  {
    if "assessment" !in soap then Ok("")
    else match soap["assessment"]
      case Str(s) => Ok(s)
      case _ => Err("AttributeError")
  }

  function Severity(assessment: string): (r: string)
    ensures r == "high" <==> exists k :: 0 <= k < |UrgentKeywords| && Contains(Lower(assessment), UrgentKeywords[k])
    ensures r != "high" ==> r == "routine"
  {
    if FirstContained(UrgentKeywords, Lower(assessment)).Some? then "high" else "routine"
  }

  function SeverityOf(soap: map<string, Value>): Result<string, string>
  {
    match AssessmentText(soap)
    case Err(e) => Err(e)
    case Ok(text) => Ok(Severity(text))
  }

  /** A note without an assessment is routine. */
  lemma MissingAssessmentIsRoutine(soap: map<string, Value>)
    requires "assessment" !in soap
    ensures SeverityOf(soap) == Ok("routine")
  {
    assert Lower("") == "";
    forall k | 0 <= k < |UrgentKeywords|
      ensures !Contains("", UrgentKeywords[k])
    {
      MissingCharNotContained("", UrgentKeywords[k], 0);
    }
  }

  method AssessSeverity(soap: map<string, Value>) returns (r: Result<string, string>)
    ensures r == SeverityOf(soap)
  {
    var text := AssessmentText(soap);
    if text.Err? {
      return Err(text.error);
    }
    var assessment := Lower(text.value);
    for k := 0 to |UrgentKeywords|
      invariant forall m :: 0 <= m < k ==> !Contains(assessment, UrgentKeywords[m])
    {
      if Contains(assessment, UrgentKeywords[k]) {
        return Ok("high");
      }
    }
    return Ok("routine");
  }

  // ---------------------------------------------------------------------
  // `_process_clinical_transcription`.

  /** Arabic clinical terms and their English glosses, in table order. */
  const TranscriptionTerms: seq<(string, string)> :=
    [("صداع", "headache"), ("غثيان", "nausea"), ("شديد", "severe"), ("يومين", "two days")]

  /** "term (gloss)". */
  function Annotated(term: (string, string)): string
  {
    term.0 + " (" + term.1 + ")"
  }

  function AnnotateAll(text: string, terms: seq<(string, string)>): string
    requires forall k :: 0 <= k < |terms| ==> |terms[k].0| > 0
    decreases |terms|
  {
    if |terms| == 0 then text
    else AnnotateAll(Replace(text, terms[0].0, Annotated(terms[0])), terms[1..])
  }

  lemma TranscriptionTermsNonEmpty()
    ensures forall k :: 0 <= k < |TranscriptionTerms| ==> |TranscriptionTerms[k].0| > 0
  {
  }

  function ProcessTranscription(transcription: string, language: string): string
  {
    TranscriptionTermsNonEmpty();
    if language == "ar" then AnnotateAll(transcription, TranscriptionTerms) else transcription
  }

  /** A text containing none of the terms comes back unchanged. */
  lemma {:induction false} AnnotateAbsent(text: string, terms: seq<(string, string)>)
    requires forall k :: 0 <= k < |terms| ==> |terms[k].0| > 0
    requires forall k :: 0 <= k < |terms| ==> !Contains(text, terms[k].0)
    ensures AnnotateAll(text, terms) == text
  {
    if |terms| > 0 {
      ReplaceAbsent(text, terms[0].0, Annotated(terms[0]));
      AnnotateAbsent(text, terms[1..]);
    }
  }

  /** `_process_clinical_transcription`: the identity for every language but
      Arabic and for Arabic text with none of the listed terms; an Arabic
      text containing the first term gets it annotated. */
  lemma ProcessTranscriptionSpec(transcription: string, language: string)
    ensures language != "ar" ==> ProcessTranscription(transcription, language) == transcription
    ensures (forall k :: 0 <= k < |TranscriptionTerms| ==> !Contains(transcription, TranscriptionTerms[k].0))
      ==> ProcessTranscription(transcription, language) == transcription
    ensures Contains(transcription, TranscriptionTerms[0].0)
      ==> Contains(Replace(transcription, TranscriptionTerms[0].0, Annotated(TranscriptionTerms[0])),
                   Annotated(TranscriptionTerms[0]))
  {
    TranscriptionTermsNonEmpty();
    if forall k :: 0 <= k < |TranscriptionTerms| ==> !Contains(transcription, TranscriptionTerms[k].0) {
      AnnotateAbsent(transcription, TranscriptionTerms);
    }
    if Contains(transcription, TranscriptionTerms[0].0) {
      ReplacePresent(transcription, TranscriptionTerms[0].0, Annotated(TranscriptionTerms[0]));
    }
  }

  method ProcessClinicalTranscription(transcription: string, language: string) returns (processed: string)
    ensures processed == ProcessTranscription(transcription, language)
  {
    TranscriptionTermsNonEmpty();
    processed := transcription;
    if language == "ar" {
      for i := 0 to |TranscriptionTerms|
        invariant AnnotateAll(processed, TranscriptionTerms[i..]) == AnnotateAll(transcription, TranscriptionTerms)
      {
        assert TranscriptionTerms[i..][1..] == TranscriptionTerms[i + 1..];
        processed := Replace(processed, TranscriptionTerms[i].0, Annotated(TranscriptionTerms[i]));
      }
    }
  }

  // ---------------------------------------------------------------------
  // `_analyze_symptoms`.

  datatype Diagnosis = Diagnosis(
    primary: seq<string>,
    differential: seq<string>,
    tests: seq<string>,
    confidence: map<string, real>)

  const MigraineDiagnosis: Diagnosis := Diagnosis(
    ["Migraine", "Tension headache"], ["Sinusitis", "Hypertension"], ["Blood pressure", "Neurological exam"],
    map["migraine" := 0.8, "tension_headache" := 0.6])

  const RespiratoryDiagnosis: Diagnosis := Diagnosis(
    ["Upper respiratory infection", "Bronchitis"], ["Pneumonia", "COVID-19"], ["Chest X-ray", "COVID test", "CBC"],
    map["uri" := 0.7, "bronchitis" := 0.5])

  const DefaultDiagnosis: Diagnosis := Diagnosis(
    ["Further evaluation needed"], ["Multiple possibilities"], ["Complete history and physical examination"],
    map["evaluation_needed" := 1.0])

  /** The rule table, in the order it is consulted. */
  const DiagnosisTable: seq<(seq<string>, Diagnosis)> :=
    [(["headache", "nausea"], MigraineDiagnosis), (["fever", "cough"], RespiratoryDiagnosis)]

  /** The case-folded symptoms; the agent also sorts them, which does not
      affect membership. */
  function Folded(symptoms: seq<string>): (r: seq<string>)
    ensures |r| == |symptoms| && forall i :: 0 <= i < |symptoms| ==> r[i] == Lower(symptoms[i])
  {
    seq(|symptoms|, i requires 0 <= i < |symptoms| => Lower(symptoms[i]))
  }

  predicate Covers(key: seq<string>, folded: seq<string>)
  {
    forall s :: s in key ==> s in folded
  }

  function Diagnose(table: seq<(seq<string>, Diagnosis)>, folded: seq<string>): Diagnosis
  {
    if |table| == 0 then DefaultDiagnosis
    else if Covers(table[0].0, folded) then table[0].1
    else Diagnose(table[1..], folded)
  }

  function AnalyzeSymptoms(symptoms: seq<string>): Diagnosis
  {
    Diagnose(DiagnosisTable, Folded(symptoms))
  }

  /** `_analyze_symptoms`: headache with nausea wins over fever with cough;
      fever with cough otherwise; anything else gets the default answer. */
  lemma AnalyzeSymptomsSpec(symptoms: seq<string>)
    ensures "headache" in Folded(symptoms) && "nausea" in Folded(symptoms)
      ==> AnalyzeSymptoms(symptoms) == MigraineDiagnosis
    ensures !("headache" in Folded(symptoms) && "nausea" in Folded(symptoms))
      && "fever" in Folded(symptoms) && "cough" in Folded(symptoms)
      ==> AnalyzeSymptoms(symptoms) == RespiratoryDiagnosis
    ensures AnalyzeSymptoms(symptoms) == DefaultDiagnosis
      <==> !("headache" in Folded(symptoms) && "nausea" in Folded(symptoms))
           && !("fever" in Folded(symptoms) && "cough" in Folded(symptoms))
  {
    var folded := Folded(symptoms);
    assert Covers(["headache", "nausea"], folded) <==> "headache" in folded && "nausea" in folded;
    assert Covers(["fever", "cough"], folded) <==> "fever" in folded && "cough" in folded;
    var rest := DiagnosisTable[1..];
    assert rest == [(["fever", "cough"], RespiratoryDiagnosis)];
    assert rest[1..] == [];
    assert Diagnose(DiagnosisTable, folded)
      == if Covers(["headache", "nausea"], folded) then MigraineDiagnosis else Diagnose(rest, folded);
    assert Diagnose(rest, folded)
      == if Covers(["fever", "cough"], folded) then RespiratoryDiagnosis else Diagnose(rest[1..], folded);
    assert Diagnose(rest[1..], folded) == DefaultDiagnosis;
    assert |MigraineDiagnosis.primary| != |DefaultDiagnosis.primary|;
    assert |RespiratoryDiagnosis.primary| != |DefaultDiagnosis.primary|;
  }

  lemma LowerIdempotent(s: string)
    ensures Lower(Lower(s)) == Lower(s)
  {
  }

  /** Matching ignores case and order: symptom lists with the same folded
      members get the same answer, and folding the input first changes nothing. */
  lemma AnalyzeSymptomsIgnoresCaseAndOrder(a: seq<string>, b: seq<string>)
    requires forall s :: s in Folded(a) <==> s in Folded(b)
    ensures AnalyzeSymptoms(a) == AnalyzeSymptoms(b)
    ensures AnalyzeSymptoms(Folded(a)) == AnalyzeSymptoms(a)
  {
    var fa := Folded(a);
    forall i | 0 <= i < |fa|
      ensures Folded(fa)[i] == fa[i]
    {
      LowerIdempotent(a[i]);
    }
    assert Folded(fa) == fa;
    DiagnoseByMembership(DiagnosisTable, Folded(a), Folded(b));
  }

  /** The lookup reads its input only through membership. */
  lemma {:induction false} DiagnoseByMembership(table: seq<(seq<string>, Diagnosis)>, x: seq<string>, y: seq<string>)
    requires forall s :: s in x <==> s in y
    ensures Diagnose(table, x) == Diagnose(table, y)
  {
    if |table| > 0 {
      assert Covers(table[0].0, x) == Covers(table[0].0, y);
      DiagnoseByMembership(table[1..], x, y);
    }
  }

  method AnalyzeSymptomList(symptoms: seq<string>) returns (d: Diagnosis)
    ensures d == AnalyzeSymptoms(symptoms)
  {
    var folded := Folded(symptoms);
    var i := 0;
    while i < |DiagnosisTable|
      invariant 0 <= i <= |DiagnosisTable|
      invariant Diagnose(DiagnosisTable[i..], folded) == AnalyzeSymptoms(symptoms)
    {
      var entry := DiagnosisTable[i];
      if forall s :: s in entry.0 ==> s in folded {
        return entry.1;
      }
      assert DiagnosisTable[i..][1..] == DiagnosisTable[i + 1..];
      i := i + 1;
    }
    return DefaultDiagnosis;
  }

  // ---------------------------------------------------------------------
  // `_generate_patient_summary`.

  /** A stored healthcare record: its type, creation time, provider and JSON data. */
  datatype HealthcareRecord = HealthcareRecord(
    recordType: string,
    createdAt: int,
    providerId: Option<string>,
    data: map<string, Value>)

  datatype Visit = Visit(date: int, recordType: string, provider: Option<string>)

  /** What the loop gathers: visits and medication names. */
  datatype Gathered = Gathered(visits: seq<Visit>, medications: seq<Value>)

  datatype Summary = Summary(
    totalRecords: nat,
    recentVisits: seq<Visit>,
    diagnoses: seq<Value>,
    medications: seq<Value>,
    allergies: seq<Value>,
    vitalTrends: map<string, Value>)

  const SummaryWindow: nat := 10

  /** `[med["name"] for med in meds]` over a list of medication objects; any
      entry that is not an object with a name raises. */
  function NamesOf(items: seq<Value>): (r: Result<seq<Value>, string>)
    ensures r.Ok? <==> forall k :: 0 <= k < |items| ==> items[k].Object? && "name" in items[k].fields
    ensures r.Ok? ==> (|r.value| == |items| && forall k :: 0 <= k < |items| ==> r.value[k] == items[k].fields["name"])
  {
    if |items| == 0 then Ok([])
    else if !(items[0].Object? && "name" in items[0].fields) then Err("malformed medication entry")
    else match NamesOf(items[1..])
      case Err(e) => Err(e)
      case Ok(rest) => Ok([items[0].fields["name"]] + rest)
  }

  /** The names listed by a prescription's `medications` (none when absent).
      Iterating an empty string or empty object yields nothing; any other
      non-list raises. */
  function MedicationNames(data: map<string, Value>): Result<seq<Value>, string>
  {
    if "medications" !in data then Ok([])
    else match data["medications"]
      case List(items) => NamesOf(items)
      case Str(s) => if |s| == 0 then Ok([]) else Err("malformed medication entry")
      case Object(m) => if m == map[] then Ok([]) else Err("malformed medication entry")
      case _ => Err("medications is not iterable")
  }

  /** One pass of the loop over a record. */
  function Gather(g: Gathered, r: HealthcareRecord): Result<Gathered, string>
  {
    if r.recordType == "clinical_note" then Ok(g.(visits := g.visits + [Visit(r.createdAt, r.recordType, r.providerId)]))
    else if r.recordType == "prescription" then
      match MedicationNames(r.data)
      case Err(e) => Err(e)
      case Ok(names) => Ok(g.(medications := g.medications + names))
    else Ok(g)
  }

  /** The loop over `records`, left to right; the first failure ends it. */
  function GatherAll(records: seq<HealthcareRecord>): Result<Gathered, string>
  {
    if |records| == 0 then Ok(Gathered([], []))
    else match GatherAll(records[..|records| - 1])
      case Err(e) => Err(e)
      case Ok(g) => Gather(g, records[|records| - 1])
  }

  function Window(records: seq<HealthcareRecord>): seq<HealthcareRecord>
  {
    if |records| <= SummaryWindow then records else records[..SummaryWindow]
  }

  function PatientSummary(records: seq<HealthcareRecord>): Result<Summary, string>
  {
    match GatherAll(Window(records))
    case Err(e) => Err(e)
    case Ok(g) => Ok(Summary(|records|, g.visits, [], g.medications, [], map[]))
  }

  function VisitOf(r: HealthcareRecord): Visit
  {
    Visit(r.createdAt, r.recordType, r.providerId)
  }

  /** The visits of the clinical notes among `records`, in order. */
  function NoteVisits(records: seq<HealthcareRecord>): (r: seq<Visit>)
    ensures |r| <= |records|
  {
    if |records| == 0 then []
    else (if records[0].recordType == "clinical_note" then [VisitOf(records[0])] else []) + NoteVisits(records[1..])
  }

  lemma {:induction false} NoteVisitsAppend(records: seq<HealthcareRecord>, r: HealthcareRecord)
    ensures NoteVisits(records + [r])
      == NoteVisits(records) + (if r.recordType == "clinical_note" then [VisitOf(r)] else [])
  {
    if |records| > 0 {
      assert (records + [r])[1..] == records[1..] + [r];
      NoteVisitsAppend(records[1..], r);
    } else {
      assert records + [r] == [r];
    }
  }

  /** A completed pass records one visit per clinical note, in order. */
  lemma {:induction false} GatheredVisits(records: seq<HealthcareRecord>)
    requires GatherAll(records).Ok?
    ensures GatherAll(records).value.visits == NoteVisits(records)
  {
    if |records| > 0 {
      var init := records[..|records| - 1];
      var last := records[|records| - 1];
      assert init + [last] == records;
      GatheredVisits(init);
      NoteVisitsAppend(init, last);
    }
  }

  /** A prescription's `medications` value that the loop can read: absent,
      an empty string or object, or a list of objects that each have a name. */
  predicate WellFormedMedications(data: map<string, Value>)
  {
    "medications" !in data
    || (data["medications"].List? && forall k :: 0 <= k < |data["medications"].items| ==>
          data["medications"].items[k].Object? && "name" in data["medications"].items[k].fields)
    || data["medications"] == Str("")
    || data["medications"] == Object(map[])
  }

  /** A prescription record whose medications the loop cannot read. */
  predicate Malformed(r: HealthcareRecord)
  {
    r.recordType == "prescription" && !WellFormedMedications(r.data)
  }

  function NameOf(v: Value): Value
  {
    if v.Object? && "name" in v.fields then v.fields["name"] else Null
  }

  /** The names a prescription lists, one per entry of its `medications` list. */
  function ListedNames(data: map<string, Value>): seq<Value>
  {
    if "medications" in data && data["medications"].List? then
      var items := data["medications"].items;
      seq(|items|, k requires 0 <= k < |items| => NameOf(items[k]))
    else []
  }

  /** The medication names of the prescriptions among `records`, in order. */
  function PrescriptionNames(records: seq<HealthcareRecord>): seq<Value>
  {
    if |records| == 0 then []
    else (if records[0].recordType == "prescription" then ListedNames(records[0].data) else [])
         + PrescriptionNames(records[1..])
  }

  lemma {:induction false} PrescriptionNamesAppend(records: seq<HealthcareRecord>, r: HealthcareRecord)
    ensures PrescriptionNames(records + [r])
      == PrescriptionNames(records) + (if r.recordType == "prescription" then ListedNames(r.data) else [])
  {
    if |records| > 0 {
      assert (records + [r])[1..] == records[1..] + [r];
      PrescriptionNamesAppend(records[1..], r);
    } else {
      assert records + [r] == [r];
    }
  }

  /** Reading one prescription succeeds exactly when it is well formed, and
      then yields its listed names. */
  lemma MedicationNamesSpec(data: map<string, Value>)
    ensures MedicationNames(data).Ok? <==> WellFormedMedications(data)
    ensures MedicationNames(data).Ok? ==> MedicationNames(data).value == ListedNames(data)
  {
  }

  /** A pass fails exactly when some prescription is malformed; a completed
      pass gathers every prescription's names, in order. */
  lemma {:induction false} GatheredMedications(records: seq<HealthcareRecord>)
    ensures GatherAll(records).Ok? <==> forall k :: 0 <= k < |records| ==> !Malformed(records[k])
    ensures GatherAll(records).Ok? ==> GatherAll(records).value.medications == PrescriptionNames(records)
  {
    if |records| > 0 {
      var init := records[..|records| - 1];
      var last := records[|records| - 1];
      assert init + [last] == records;
      GatheredMedications(init);
      PrescriptionNamesAppend(init, last);
      MedicationNamesSpec(last.data);
      forall k | 0 <= k < |init|
        ensures init[k] == records[k]
      {
      }
    }
  }

  /** `_generate_patient_summary`: the total counts every record, but only
      the first ten are read; the visits are the clinical notes among them,
      in order; diagnoses, allergies and trends stay empty. */
  lemma PatientSummarySpec(records: seq<HealthcareRecord>)
    requires PatientSummary(records).Ok?
    ensures var s := PatientSummary(records).value;
      s.totalRecords == |records| && s.diagnoses == [] && s.allergies == [] && s.vitalTrends == map[]
      && s.recentVisits == NoteVisits(Window(records))
      && |s.recentVisits| <= SummaryWindow
      && s.medications == PrescriptionNames(Window(records))
  {
    GatheredVisits(Window(records));
    GatheredMedications(Window(records));
  }

  /** The summary fails exactly when a prescription among the first ten
      records has medications the loop cannot read. */
  lemma PatientSummaryFails(records: seq<HealthcareRecord>)
    ensures PatientSummary(records).Err?
      <==> exists k :: 0 <= k < |Window(records)| && Malformed(Window(records)[k])
  {
    GatheredMedications(Window(records));
  }

  /** Records past the tenth never influence the summary beyond its count. */
  lemma SummaryIgnoresLaterRecords(a: seq<HealthcareRecord>, b: seq<HealthcareRecord>)
    requires |a| == |b| && Window(a) == Window(b)
    ensures PatientSummary(a) == PatientSummary(b)
  {
  }

  method GeneratePatientSummary(records: seq<HealthcareRecord>) returns (r: Result<Summary, string>)
    ensures r == PatientSummary(records)
  {
    var window := Window(records);
    var g := Gathered([], []);
    var i := 0;
    while i < |window|
      invariant 0 <= i <= |window|
      invariant GatherAll(window[..i]) == Ok(g)
    {
      var record := window[i];
      assert window[..i + 1][..i] == window[..i];
      if record.recordType == "clinical_note" {
        g := g.(visits := g.visits + [Visit(record.createdAt, record.recordType, record.providerId)]);
      } else if record.recordType == "prescription" {
        var names := MedicationNames(record.data);
        if names.Err? {
          assert GatherAll(window[..i + 1]).Err?;
          assert window[..i + 1] + window[i + 1..] == window;
          ErrorPersists(window[..i + 1], window[i + 1..]);
          return Err(names.error);
        }
        g := g.(medications := g.medications + names.value);
      }
      i := i + 1;
    }
    assert window[..|window|] == window;
    r := Ok(Summary(|records|, g.visits, [], g.medications, [], map[]));
  }

  /** A failure is final: later records cannot undo it. */
  lemma {:induction false} ErrorPersists(done: seq<HealthcareRecord>, rest: seq<HealthcareRecord>)
    requires GatherAll(done).Err?
    ensures GatherAll(done + rest) == GatherAll(done)
    decreases |rest|
  {
    if |rest| > 0 {
      var all := done + rest;
      assert all[..|all| - 1] == done + rest[..|rest| - 1];
      ErrorPersists(done, rest[..|rest| - 1]);
    } else {
      assert done + rest == done;
    }
  }

  // ---------------------------------------------------------------------
  // `_validate_prescription`.

  datatype Provider = Provider(id: nat, name: Option<string>, healthcareId: Option<string>)

  datatype Prescription = Prescription(
    patientId: int,
    medications: seq<map<string, Value>>,
    diagnosis: string,
    notes: Option<string>,
    language: string)

  datatype ValidatedMedication = ValidatedMedication(
    name: Value,
    dosage: Value,
    frequency: Value,
    duration: Value,
    instructions: Value,
    validated: bool)

  datatype ValidatedPrescription = ValidatedPrescription(
    patientId: int,
    medications: seq<ValidatedMedication>,
    diagnosis: string,
    notes: Option<string>,
    provider: Provider,
    language: string,
    drugInteractions: seq<Value>,
    allergiesChecked: bool,
    dosageVerified: bool)

  /** One checked medication: its fields copied, instructions defaulting to "". */
  function ValidateMedication(med: map<string, Value>): (v: ValidatedMedication)
    ensures v.validated
    ensures v.name == GetOrNull(med, "name") && v.dosage == GetOrNull(med, "dosage")
    ensures v.frequency == GetOrNull(med, "frequency") && v.duration == GetOrNull(med, "duration")
    ensures v.instructions == if "instructions" in med then med["instructions"] else Str("")
  {
    ValidatedMedication(GetOrNull(med, "name"), GetOrNull(med, "dosage"), GetOrNull(med, "frequency"), GetOrNull(med, "duration"),
                        if "instructions" in med then med["instructions"] else Str(""), true)
  }

  function ValidatedMedications(meds: seq<map<string, Value>>): (r: seq<ValidatedMedication>)
    ensures |r| == |meds| && forall i :: 0 <= i < |meds| ==> r[i] == ValidateMedication(meds[i])
  {
    seq(|meds|, i requires 0 <= i < |meds| => ValidateMedication(meds[i]))
  }

  function ValidatePrescription(p: Prescription, provider: Provider): (v: ValidatedPrescription)
  {
    ValidatedPrescription(p.patientId, ValidatedMedications(p.medications), p.diagnosis, p.notes, provider,
                          p.language, [], true, true)
  }

  /** `_validate_prescription`: one validated entry per medication, in the
      same order and under the same name; the checks are always reported as
      passed and no interactions are reported. */
  lemma ValidatePrescriptionSpec(p: Prescription, provider: Provider)
    ensures var v := ValidatePrescription(p, provider);
      |v.medications| == |p.medications|
      && (forall i :: 0 <= i < |p.medications| ==>
            v.medications[i].validated && v.medications[i].name == GetOrNull(p.medications[i], "name")
            && v.medications[i].dosage == GetOrNull(p.medications[i], "dosage")
            && v.medications[i].frequency == GetOrNull(p.medications[i], "frequency")
            && v.medications[i].duration == GetOrNull(p.medications[i], "duration")
            && ("instructions" in p.medications[i] ==> v.medications[i].instructions == p.medications[i]["instructions"])
            && ("instructions" !in p.medications[i] ==> v.medications[i].instructions == Str("")))
      && v.allergiesChecked && v.dosageVerified && v.drugInteractions == []
      && v.patientId == p.patientId && v.provider == provider
      && v.diagnosis == p.diagnosis && v.notes == p.notes && v.language == p.language
  {
  }

  method ValidatePrescriptionRequest(p: Prescription, provider: Provider) returns (v: ValidatedPrescription)
    ensures v == ValidatePrescription(p, provider)
  {
    var meds: seq<ValidatedMedication> := [];
    for i := 0 to |p.medications|
      invariant meds == ValidatedMedications(p.medications[..i])
    {
      var med := p.medications[i];
      var processed := ValidatedMedication(GetOrNull(med, "name"), GetOrNull(med, "dosage"), GetOrNull(med, "frequency"),
                                           GetOrNull(med, "duration"),
                                           if "instructions" in med then med["instructions"] else Str(""), true);
      meds := meds + [processed];
    }
    assert p.medications[..|p.medications|] == p.medications;
    v := ValidatedPrescription(p.patientId, meds, p.diagnosis, p.notes, provider, p.language, [], true, true);
  }
}
