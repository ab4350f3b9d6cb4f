/**
 * The hallucination guard of src/utils/grounding.py: a clause reference counts as
 * grounded when it occurs, ignoring letter case, inside the document text.
 */
module Grounding {
  import opened Text

  /** `clause_reference.lower() in raw_text.lower()`. */
  function VerifyGrounding(rawText: string, clauseReference: string): (r: bool)
    ensures r <==> IsInfix(Lower(clauseReference), Lower(rawText))
  {
    Contains(Lower(clauseReference), Lower(rawText))
  }

  /** Two strings that differ at most in the case of ASCII letters. */
  predicate SameUpToCase(a: string, b: string) {
    |a| == |b| && forall i :: 0 <= i < |a| ==> LowerChar(a[i]) == LowerChar(b[i])
  }

  /** Strings equal up to case lower-case to the same string. */
  lemma {:induction false} SameUpToCaseLower(a: string, b: string)
    requires SameUpToCase(a, b)
    ensures Lower(a) == Lower(b)
  {
    forall i | 0 <= i < |a| ensures Lower(a)[i] == Lower(b)[i] {
      assert Lower(a)[i] == LowerChar(a[i]);
    }
  }

  /** The empty reference is grounded in every text. */
  lemma EmptyReferenceGrounded(rawText: string)
    ensures VerifyGrounding(rawText, "")
  {
    assert OccursAt(Lower(""), Lower(rawText), 0);
  }

  /** Changing the letter case of either argument does not change the verdict. */
  lemma CaseInsensitive(rawText: string, rawText': string, clauseReference: string, clauseReference': string)
    requires SameUpToCase(rawText, rawText') && SameUpToCase(clauseReference, clauseReference')
    ensures VerifyGrounding(rawText, clauseReference) == VerifyGrounding(rawText', clauseReference')
  {
    SameUpToCaseLower(rawText, rawText');
    SameUpToCaseLower(clauseReference, clauseReference');
  }

  /** A verbatim excerpt of the text is grounded; in particular the text itself. */
  lemma ExcerptGrounded(rawText: string, clauseReference: string)
    requires IsInfix(clauseReference, rawText)
    ensures VerifyGrounding(rawText, clauseReference)
  {
    LowerKeepsInfix(clauseReference, rawText);
  }

  /** The whole text is grounded in itself. */
  lemma TextGroundsItself(rawText: string)
    ensures VerifyGrounding(rawText, rawText)
  {
    assert OccursAt(rawText, rawText, 0);
    ExcerptGrounded(rawText, rawText);
  }

  /** Every part of a grounded reference is grounded. */
  lemma PartOfGroundedIsGrounded(rawText: string, clauseReference: string, part: string)
    requires VerifyGrounding(rawText, clauseReference)
    requires IsInfix(part, clauseReference)
    ensures VerifyGrounding(rawText, part)
  {
    LowerKeepsInfix(part, clauseReference);
    InfixTransitive(Lower(part), Lower(clauseReference), Lower(rawText));
  }
}
