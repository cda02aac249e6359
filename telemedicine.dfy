/** The drug search of the telemedicine page. */
module Telemedicine {

  import opened Lists
  import opened Text

  datatype Drug = Drug(drugName: string, medicalCondition: string, description: string, activity: string, drugLink: string)

  /** The search test: the lowercased name or the lowercased condition contains the
      lowercased search term. */
  predicate Matches(d: Drug, term: string) {
    Contains(Lower(d.drugName), Lower(term)) || Contains(Lower(d.medicalCondition), Lower(term))
  }

  /** `filteredDrugs`. */
  function FilteredDrugs(drugs: seq<Drug>, term: string): (r: seq<Drug>)
    ensures IsSubseq(r, drugs)
    ensures forall d :: d in r <==> d in drugs && Matches(d, term)
    ensures forall d :: multiset(r)[d] == if Matches(d, term) then multiset(drugs)[d] else 0
    ensures term == "" ==> r == drugs
  {
    EmptyTermMatches(drugs, term);
    FilterCounts(drugs, (d: Drug) => Matches(d, term));
    Filter(drugs, (d: Drug) => Matches(d, term))
  }

  lemma EmptyTermMatches(xs: seq<Drug>, term: string)
    ensures term == "" ==> forall i :: 0 <= i < |xs| ==> Matches(xs[i], term)
  {
    if term == "" {
      forall i | 0 <= i < |xs| ensures Matches(xs[i], term) {
        ContainsEmpty(Lower(xs[i].drugName));
      }
    }
  }

  /** The search does not depend on the letter case of the term. */
  lemma SearchIgnoresCase(drugs: seq<Drug>, term: string)
    ensures FilteredDrugs(drugs, Lower(term)) == FilteredDrugs(drugs, term)
  {
    LowerIdempotent(term);
    FilterAgrees(drugs, (d: Drug) => Matches(d, Lower(term)), (d: Drug) => Matches(d, term));
  }

  /** A drug is found by any part of the condition it treats, in any letter case. */
  lemma FoundByConditionPart(drugs: seq<Drug>, i: nat, a: string, part: string, c: string)
    requires i < |drugs|
    requires Lower(drugs[i].medicalCondition) == a + Lower(part) + c
    ensures drugs[i] in FilteredDrugs(drugs, part)
  {
    ContainsInfix(a, Lower(part), c);
  }

  /** Only the name and the condition are searched: the other fields never decide. */
  lemma OtherFieldsIgnored(d: Drug, term: string, description: string, activity: string, drugLink: string)
    ensures Matches(d.(description := description, activity := activity, drugLink := drugLink), term) == Matches(d, term)
  {
  }
}
