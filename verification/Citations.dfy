/**
 The two validators of a model's citations: the Python worker checks an answer before it returns it, and
 the Go runtime checks it again before it stores it.
 */
module Citations {

  datatype Evidence = Evidence(citationId: string, content: string)
  datatype Grounding = Grounded | InsufficientEvidence | NotApplicable

  datatype CitationError =
    | NoCitations
    | Unauthorized(id: string)
    | NotPresent(id: string)
    | Undeclared(id: string)
    | UndeclaredWithoutEvidence
    | InvalidGrounding
  datatype Validated = Valid(cited: seq<Evidence>) | Invalid(error: CitationError)

  // ---------------------------------------------------------------- citations in a text

  predicate Digit(c: char) { '0' <= c <= '9' }

  predicate CitationId(id: string) {
    |id| >= 2 && id[0] == 'C' && forall k | 1 <= k < |id| :: Digit(id[k])
  }

  function Bracketed(id: string): string { "[" + id + "]" }

  predicate OccursAt(text: string, id: string, i: nat) {
    i + |id| + 2 <= |text| && text[i..i + |id| + 2] == Bracketed(id)
  }

  /** `strings.Contains(text, "[" + id + "]")` */
  predicate Contains(text: string, id: string) {
    exists i: nat | i < |text| :: OccursAt(text, id, i)
  }

  function DigitsEnd(text: string, i: nat): (end: nat)
    requires i <= |text|
    ensures i <= end <= |text|
    ensures forall k | i <= k < end :: Digit(text[k])
    ensures end < |text| ==> !Digit(text[end])
    decreases |text| - i
  {
    if i < |text| && Digit(text[i]) then DigitsEnd(text, i + 1) else i
  }

  /** Where a match of `\[C[0-9]+\]` at `i` ends; zero if there is none. */
  function MatchEnd(text: string, i: nat): (end: nat)
    ensures end != 0 ==> i + 4 <= end <= |text|
  {
    if i + 1 < |text| && text[i] == '[' && text[i + 1] == 'C' then
      var end := DigitsEnd(text, i + 2);
      if i + 2 < end < |text| && text[end] == ']' then end + 1 else 0
    else 0
  }

  /** The leftmost non-overlapping matches, as both regular expression libraries find them. */
  function FindAll(text: string, from: nat): seq<string>
    decreases |text| - from
  {
    if from >= |text| then []
    else
      var end := MatchEnd(text, from);
      if end == 0 then FindAll(text, from + 1) else [text[from + 1..end - 1]] + FindAll(text, end)
  }

  lemma MatchIsOccurrence(text: string, i: nat)
    requires MatchEnd(text, i) != 0
    ensures var id := text[i + 1..MatchEnd(text, i) - 1]; CitationId(id) && OccursAt(text, id, i)
  {
    var end := MatchEnd(text, i);
    assert text[i..end] == Bracketed(text[i + 1..end - 1]);
  }

  lemma OccurrenceIsMatch(text: string, id: string, i: nat)
    requires CitationId(id) && OccursAt(text, id, i)
    ensures MatchEnd(text, i) == i + |id| + 2 && text[i + 1..i + |id| + 1] == id
  {
    var token := text[i..i + |id| + 2];
    assert forall k | 0 <= k < |token| :: text[i + k] == Bracketed(id)[k];
    assert text[i + 1 + |id|] == ']';
    assert forall k | i + 2 <= k < i + 1 + |id| :: text[k] == id[k - i - 1];
  }

  lemma OccurrenceStarts(text: string, id: string, j: nat)
    requires OccursAt(text, id, j)
    ensures text[j] == '['
  {
    assert text[j] == text[j..j + |id| + 2][0];
  }

  /** Two citations cannot overlap, so scanning on behind a match passes over none. */
  lemma NothingInsideMatch(text: string, i: nat, j: nat, id: string)
    requires MatchEnd(text, i) != 0 && i < j < MatchEnd(text, i)
    ensures !OccursAt(text, id, j)
  {
    assert forall k | i < k < MatchEnd(text, i) :: text[k] != '[';
    if OccursAt(text, id, j) {
      OccurrenceStarts(text, id, j);
    }
  }

  predicate OccursFrom(text: string, id: string, from: nat) {
    exists i: nat | from <= i < |text| :: OccursAt(text, id, i)
  }

  /** The scan finds the citations that occur in the text: no more, and none is missed. */
  lemma {:induction false} ScanMissesNothing(text: string, from: nat, id: string)
    ensures id in FindAll(text, from) <==> CitationId(id) && OccursFrom(text, id, from)
    decreases |text| - from
  {
    if from < |text| {
      var end := MatchEnd(text, from);
      if end == 0 {
        ScanMissesNothing(text, from + 1, id);
        if CitationId(id) && OccursAt(text, id, from) {
          OccurrenceIsMatch(text, id, from);
        }
      } else {
        ScanMissesNothing(text, end, id);
        MatchIsOccurrence(text, from);
        forall j | from < j < end ensures !OccursAt(text, id, j) {
          NothingInsideMatch(text, from, j, id);
        }
        if CitationId(id) && OccursAt(text, id, from) {
          OccurrenceIsMatch(text, id, from);
        }
      }
    }
  }

  lemma CitedIffContained(text: string, id: string)
    ensures id in FindAll(text, 0) <==> CitationId(id) && Contains(text, id)
  {
    ScanMissesNothing(text, 0, id);
  }

  // ---------------------------------------------------------------- what the Go validator promises

  /** The evidence by id; of two pieces with the same id the later one stays. */
  function Allowed(evidence: seq<Evidence>): map<string, Evidence> {
    if evidence == [] then map[]
    else Allowed(evidence[..|evidence| - 1])[evidence[|evidence| - 1].citationId := evidence[|evidence| - 1]]
  }

  /** Every id once, where it was declared first. */
  function Distinct(ids: seq<string>): seq<string> {
    if ids == [] then []
    else
      var before := Distinct(ids[..|ids| - 1]);
      if ids[|ids| - 1] in ids[..|ids| - 1] then before else before + [ids[|ids| - 1]]
  }

  predicate NoDuplicates(ids: seq<string>) {
    forall i, j | 0 <= i < j < |ids| :: ids[i] != ids[j]
  }

  lemma {:induction false} AllowedIsEvidence(evidence: seq<Evidence>, id: string)
    ensures id in Allowed(evidence) <==> exists k | 0 <= k < |evidence| :: evidence[k].citationId == id
    ensures id in Allowed(evidence) ==> Allowed(evidence)[id] in evidence && Allowed(evidence)[id].citationId == id
  {
    if evidence != [] {
      var n := |evidence| - 1;
      AllowedIsEvidence(evidence[..n], id);
      assert forall k | 0 <= k < n :: evidence[..n][k] == evidence[k];
      if evidence[n].citationId == id {
        assert evidence[n] in evidence;
      }
    }
  }

  lemma {:induction false} DistinctKeepsIds(ids: seq<string>)
    ensures NoDuplicates(Distinct(ids)) && |Distinct(ids)| <= |ids|
    ensures forall id :: id in Distinct(ids) <==> id in ids
    ensures NoDuplicates(ids) ==> Distinct(ids) == ids
  {
    if ids != [] {
      var n := |ids| - 1;
      DistinctKeepsIds(ids[..n]);
      assert ids == ids[..n] + [ids[n]];
      assert NoDuplicates(ids) ==> ids[n] !in ids[..n];
    }
  }

  /** Which declarations the validator accepts for a text. */
  predicate Accepts(ids: seq<string>, text: string, evidence: seq<Evidence>) {
    && ids != []
    && (forall id | id in ids :: id in Allowed(evidence) && Contains(text, id))
    && (forall id | id in FindAll(text, 0) :: id in ids)
  }

  /** What an error says about the declaration it refuses. */
  predicate Reports(error: CitationError, ids: seq<string>, text: string, evidence: seq<Evidence>) {
    match error
    case NoCitations => ids == []
    case Unauthorized(id) => id in ids && id !in Allowed(evidence)
    case NotPresent(id) => id in ids && id in Allowed(evidence) && !Contains(text, id)
    case Undeclared(id) => ids != [] && id in FindAll(text, 0) && id !in ids
    case _ => false
  }

  predicate Selects(cited: seq<Evidence>, ids: seq<string>, evidence: seq<Evidence>) {
    && |cited| == |Distinct(ids)|
    && forall k | 0 <= k < |cited| ::
         Distinct(ids)[k] in Allowed(evidence) && cited[k] == Allowed(evidence)[Distinct(ids)[k]]
  }

  lemma DistinctGrows(ids: seq<string>, i: nat)
    requires i < |ids|
    ensures Distinct(ids[..i + 1]) == if ids[i] in ids[..i] then Distinct(ids[..i]) else Distinct(ids[..i]) + [ids[i]]
  {
    assert ids[..i + 1][..i] == ids[..i];
  }

  method Collect(evidence: seq<Evidence>) returns (allowed: map<string, Evidence>)
    ensures allowed == Allowed(evidence)
  {
    allowed := map[];
    for i := 0 to |evidence|
      invariant allowed == Allowed(evidence[..i])
    {
      allowed := allowed[evidence[i].citationId := evidence[i]];
      assert evidence[..i + 1][..i] == evidence[..i];
    }
    assert evidence[..|evidence|] == evidence;
  }

  /** `validateCitations` */
  method ValidateCitations(ids: seq<string>, text: string, evidence: seq<Evidence>) returns (result: Validated)
    ensures result.Valid? <==> Accepts(ids, text, evidence)
    ensures result.Valid? ==> Selects(result.cited, ids, evidence)
    ensures result.Invalid? ==> Reports(result.error, ids, text, evidence)
  {
    if |ids| == 0 {
      return Invalid(NoCitations);
    }
    var allowed := Collect(evidence);
    var seen: set<string> := {};
    var cited: seq<Evidence> := [];
    for i := 0 to |ids|
      invariant forall id :: id in seen <==> id in ids[..i]
      invariant forall k | 0 <= k < i :: ids[k] in allowed && Contains(text, ids[k])
      invariant Selects(cited, ids[..i], evidence)
    {
      var id := ids[i];
      if id !in allowed {
        return Invalid(Unauthorized(id));
      }
      if !Contains(text, id) {
        return Invalid(NotPresent(id));
      }
      DistinctGrows(ids, i);
      if id !in seen {
        seen := seen + {id};
        cited := cited + [allowed[id]];
      }
    }
    assert ids[..|ids|] == ids;
    var found := FindAll(text, 0);
    for i := 0 to |found|
      invariant forall k | 0 <= k < i :: found[k] in seen
    {
      if found[i] !in seen {
        return Invalid(Undeclared(found[i]));
      }
    }
    return Valid(cited);
  }

  /** The answers `validateKnowledgeCandidate` lets through. */
  predicate GoAccepts(status: Grounding, ids: seq<string>, text: string, evidence: seq<Evidence>) {
    match status
    case Grounded => Accepts(ids, text, evidence)
    case InsufficientEvidence => if ids == [] then FindAll(text, 0) == [] else Accepts(ids, text, evidence)
    case NotApplicable => false
  }

  method ValidateKnowledgeCandidate(status: Grounding, ids: seq<string>, text: string, evidence: seq<Evidence>)
    returns (result: Validated)
    ensures result.Valid? <==> GoAccepts(status, ids, text, evidence)
    ensures result.Valid? ==> Selects(result.cited, ids, evidence)
    ensures result.Invalid? ==>
              match status
              case Grounded => Reports(result.error, ids, text, evidence)
              case InsufficientEvidence =>
                if ids == [] then result.error == UndeclaredWithoutEvidence else Reports(result.error, ids, text, evidence)
              case NotApplicable => result.error == InvalidGrounding
  {
    match status {
      case Grounded => result := ValidateCitations(ids, text, evidence);
      case InsufficientEvidence =>
        if |ids| == 0 {
          if FindAll(text, 0) != [] {
            return Invalid(UndeclaredWithoutEvidence);
          }
          return Valid([]);
        }
        result := ValidateCitations(ids, text, evidence);
      case NotApplicable => return Invalid(InvalidGrounding);
    }
  }

  // ---------------------------------------------------------------- the Python validator

  datatype PythonError =
    | CitedWithoutEvidence
    | EvidenceNotApplicable
    | GroundedWithoutEvidence
    | GroundedWithoutCitations
    | DuplicateCitations
    | UnauthorizedCitations
    | TextMismatch
  datatype PythonVerdict = Passed | Raised(error: PythonError)

  function Elements(ids: seq<string>): set<string> { set id | id in ids }

  function EvidenceIds(evidence: seq<Evidence>): set<string> { set item | item in evidence :: item.citationId }

  /** `_validate_candidate` */
  function PythonValidate(status: Grounding, ids: seq<string>, text: string, evidence: seq<Evidence>): PythonVerdict {
    if evidence == [] && ids != [] then Raised(CitedWithoutEvidence)
    else if evidence != [] && status == NotApplicable then Raised(EvidenceNotApplicable)
    else if evidence == [] && status == Grounded then Raised(GroundedWithoutEvidence)
    else if status == Grounded && ids == [] then Raised(GroundedWithoutCitations)
    else if |Elements(ids)| != |ids| then Raised(DuplicateCitations)
    else if !(Elements(ids) <= EvidenceIds(evidence)) then Raised(UnauthorizedCitations)
    else if Elements(FindAll(text, 0)) != Elements(ids) then Raised(TextMismatch)
    else Passed
  }

  lemma {:induction false} ElementsCount(ids: seq<string>)
    ensures |Elements(ids)| <= |ids|
    ensures |Elements(ids)| == |ids| <==> NoDuplicates(ids)
  {
    if ids != [] {
      var n := |ids| - 1;
      ElementsCount(ids[..n]);
      assert ids == ids[..n] + [ids[n]];
      assert Elements(ids) == Elements(ids[..n]) + {ids[n]};
      if ids[n] in ids[..n] {
        var k :| 0 <= k < n && ids[..n][k] == ids[n];
        assert ids[k] == ids[n];
      }
      if NoDuplicates(ids[..n]) && ids[n] !in ids[..n] {
        forall i, j | 0 <= i < j < |ids| ensures ids[i] != ids[j] {
          assert ids[i] == ids[..n][i];
          assert j < n ==> ids[j] == ids[..n][j];
        }
      }
    }
  }

  lemma EvidenceIdsAreAllowed(evidence: seq<Evidence>)
    ensures EvidenceIds(evidence) == Allowed(evidence).Keys
  {
    forall id ensures id in EvidenceIds(evidence) <==> id in Allowed(evidence) {
      AllowedIsEvidence(evidence, id);
    }
  }

  // ---------------------------------------------------------------- how the two relate

  predicate WellFormed(evidence: seq<Evidence>) {
    evidence != [] && forall k | 0 <= k < |evidence| :: CitationId(evidence[k].citationId)
  }

  /** Under evidence with proper ids, an accepted declaration names exactly the citations of the text. */
  lemma AcceptedIdsAreTheTexts(ids: seq<string>, text: string, evidence: seq<Evidence>)
    requires WellFormed(evidence)
    ensures Accepts(ids, text, evidence) <==>
            ids != [] && Elements(ids) <= EvidenceIds(evidence) && Elements(ids) == Elements(FindAll(text, 0))
  {
    EvidenceIdsAreAllowed(evidence);
    forall id | id in Allowed(evidence) ensures CitationId(id) {
      AllowedIsEvidence(evidence, id);
    }
    forall id ensures id in FindAll(text, 0) <==> CitationId(id) && Contains(text, id) {
      CitedIffContained(text, id);
    }
    if Accepts(ids, text, evidence) {
      assert forall id | id in ids :: id in Elements(ids);
    }
    if ids != [] && Elements(ids) <= EvidenceIds(evidence) && Elements(ids) == Elements(FindAll(text, 0)) {
      forall id | id in ids ensures id in Allowed(evidence) && Contains(text, id) {
        assert id in Elements(ids);
        assert id in Elements(FindAll(text, 0));
      }
      forall id | id in FindAll(text, 0) ensures id in ids {
        assert id in Elements(FindAll(text, 0));
      }
    }
  }

  /**
   Whatever the Python worker lets through, the Go runtime lets through as well; and what Go accepts,
   Python would have refused only because an id was declared twice.
   */
  lemma ValidatorsAgree(status: Grounding, ids: seq<string>, text: string, evidence: seq<Evidence>)
    requires WellFormed(evidence)
    ensures PythonValidate(status, ids, text, evidence).Passed? <==> GoAccepts(status, ids, text, evidence) && NoDuplicates(ids)
  {
    AcceptedIdsAreTheTexts(ids, text, evidence);
    ElementsCount(ids);
    if ids == [] {
      assert Elements(ids) == {};
      assert FindAll(text, 0) != [] ==> FindAll(text, 0)[0] in Elements(FindAll(text, 0));
    }
  }

  predicate UniqueIds(evidence: seq<Evidence>) {
    forall i, j | 0 <= i < j < |evidence| :: evidence[i].citationId != evidence[j].citationId
  }

  /** What Go stores for an answer Python passed is the declared evidence, piece by piece and in order. */
  lemma PassedEvidenceIsDeclared(status: Grounding, ids: seq<string>, text: string, evidence: seq<Evidence>, cited: seq<Evidence>)
    requires WellFormed(evidence) && UniqueIds(evidence)
    requires PythonValidate(status, ids, text, evidence).Passed?
    requires Selects(cited, ids, evidence)
    ensures |cited| == |ids|
    ensures forall k | 0 <= k < |ids| :: cited[k] in evidence && cited[k].citationId == ids[k]
    ensures forall k, item | 0 <= k < |ids| && item in evidence && item.citationId == ids[k] :: item == cited[k]
  {
    ValidatorsAgree(status, ids, text, evidence);
    DistinctKeepsIds(ids);
    forall k | 0 <= k < |ids| ensures cited[k] in evidence && cited[k].citationId == ids[k] {
      AllowedIsEvidence(evidence, ids[k]);
    }
    forall k, item | 0 <= k < |ids| && item in evidence && item.citationId == ids[k] ensures item == cited[k] {
      assert cited[k] in evidence && cited[k].citationId == ids[k];
      var a :| 0 <= a < |evidence| && evidence[a] == item;
      var b :| 0 <= b < |evidence| && evidence[b] == cited[k];
    }
  }

  /** A grounded answer that Go accepts declares exactly the citations its text shows. */
  lemma GroundedAnswersAreHonest(ids: seq<string>, text: string, evidence: seq<Evidence>)
    requires WellFormed(evidence) && GoAccepts(Grounded, ids, text, evidence)
    ensures forall id :: id in ids <==> CitationId(id) && Contains(text, id)
  {
    AcceptedIdsAreTheTexts(ids, text, evidence);
    forall id ensures id in ids <==> CitationId(id) && Contains(text, id) {
      CitedIffContained(text, id);
      assert id in ids <==> id in Elements(ids);
      assert id in FindAll(text, 0) <==> id in Elements(FindAll(text, 0));
    }
  }

  predicate HasEvidence(evidence: seq<Evidence>, id: string) {
    exists k | 0 <= k < |evidence| :: evidence[k].citationId == id
  }

  /**
   What the Python worker lets through, whatever the evidence: each id is declared once, has evidence, and the ids
   are exactly the citations of the text; without evidence nothing may be declared and nothing called grounded,
   with evidence the grounding must be stated, and what is called grounded must be cited.
   */
  lemma PythonPassesIff(status: Grounding, ids: seq<string>, text: string, evidence: seq<Evidence>)
    ensures PythonValidate(status, ids, text, evidence).Passed? <==>
            && NoDuplicates(ids)
            && (forall id | id in ids :: HasEvidence(evidence, id))
            && (forall id :: id in ids <==> CitationId(id) && Contains(text, id))
            && (if evidence == [] then ids == [] && status != Grounded else status != NotApplicable)
            && (status == Grounded ==> ids != [])
  {
    ElementsCount(ids);
    EvidenceIdsAreAllowed(evidence);
    forall id ensures id in EvidenceIds(evidence) <==> HasEvidence(evidence, id) {
      AllowedIsEvidence(evidence, id);
    }
    forall id ensures id in Elements(FindAll(text, 0)) <==> CitationId(id) && Contains(text, id) {
      CitedIffContained(text, id);
    }
    forall id ensures id in Elements(ids) <==> id in ids {}
    if forall id :: id in ids <==> CitationId(id) && Contains(text, id) {
      assert Elements(FindAll(text, 0)) == Elements(ids);
    }
  }

  /** Every error of the Python worker tells the truth about the answer it refuses. */
  lemma PythonErrorsAreTrue(status: Grounding, ids: seq<string>, text: string, evidence: seq<Evidence>)
    ensures var verdict := PythonValidate(status, ids, text, evidence);
            verdict.Raised? ==>
              match verdict.error
              case CitedWithoutEvidence => evidence == [] && ids != []
              case EvidenceNotApplicable => evidence != [] && status == NotApplicable
              case GroundedWithoutEvidence => evidence == [] && status == Grounded
              case GroundedWithoutCitations => evidence != [] && status == Grounded && ids == []
              case DuplicateCitations => !NoDuplicates(ids)
              case UnauthorizedCitations => exists id :: id in ids && !HasEvidence(evidence, id)
              case TextMismatch => exists id :: !(id in ids <==> CitationId(id) && Contains(text, id))
  {
    ElementsCount(ids);
    EvidenceIdsAreAllowed(evidence);
    var verdict := PythonValidate(status, ids, text, evidence);
    if verdict == Raised(UnauthorizedCitations) {
      var id :| id in Elements(ids) && id !in EvidenceIds(evidence);
      AllowedIsEvidence(evidence, id);
    } else if verdict == Raised(TextMismatch) {
      var id :| !(id in Elements(FindAll(text, 0)) <==> id in Elements(ids));
      CitedIffContained(text, id);
    }
  }

  // ---------------------------------------------------------------- which evidence is stored, and in which order

  /** Of two pieces of evidence with one id the later one counts. */
  lemma {:induction false} LaterEvidenceCounts(evidence: seq<Evidence>, k: nat)
    requires k < |evidence| && forall j | k < j < |evidence| :: evidence[j].citationId != evidence[k].citationId
    ensures evidence[k].citationId in Allowed(evidence) && Allowed(evidence)[evidence[k].citationId] == evidence[k]
  {
    var n := |evidence| - 1;
    if k < n {
      LaterEvidenceCounts(evidence[..n], k);
    }
  }

  /** Where an id is declared first. */
  predicate DeclaredAt(ids: seq<string>, i: nat, id: string) { i < |ids| && ids[i] == id && id !in ids[..i] }

  lemma {:induction false} DistinctIsDeclared(ids: seq<string>, a: nat) returns (i: nat)
    requires a < |Distinct(ids)|
    ensures DeclaredAt(ids, i, Distinct(ids)[a])
  {
    var n := |ids| - 1;
    if a < |Distinct(ids[..n])| {
      i := DistinctIsDeclared(ids[..n], a);
      assert ids[..n][..i] == ids[..i];
    } else {
      i := n;
    }
  }

  /** Evidence is stored in the order in which its ids were declared first. */
  lemma {:induction false} FirstDeclarationsInOrder(ids: seq<string>, a: nat, b: nat) returns (i: nat, j: nat)
    requires a < b < |Distinct(ids)|
    ensures i < j && DeclaredAt(ids, i, Distinct(ids)[a]) && DeclaredAt(ids, j, Distinct(ids)[b])
  {
    var n := |ids| - 1;
    if b < |Distinct(ids[..n])| {
      i, j := FirstDeclarationsInOrder(ids[..n], a, b);
      assert ids[..n][..i] == ids[..i] && ids[..n][..j] == ids[..j];
    } else {
      i := DistinctIsDeclared(ids[..n], a);
      assert ids[..n][..i] == ids[..i];
      j := n;
    }
  }
}
