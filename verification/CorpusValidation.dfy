/** The validation of a guidance corpus before it is scored. */
module CorpusValidation {
  import opened Common
  import opened CorpusMatcher
  import opened CorpusScoring

  /** The keys every case must have. */
  datatype Key =
    | CaseId | Company | Ticker | Cik | Accession | FilingDate | Form | DocumentName | SourceUrl | SourceHash
    | TextLocator | PassageHash | PassageText | LabelKey | ReviewKey

  const REQUIRED: seq<Key> := [
    CaseId, Company, Ticker, Cik, Accession, FilingDate, Form, DocumentName, SourceUrl, SourceHash,
    TextLocator, PassageHash, PassageText, LabelKey, ReviewKey]

  datatype LabelText = Known(tag: Label) | OtherLabel

  datatype ReviewState = Reviewed | Unresolved | OtherState

  /**
   A decoded corpus line. `plain` are the keys it has among those nothing else looks at; the other keys are there
   when their value is. A row that is no object is None; `rows` is the list form and `single` the one-row form.
   */
  datatype Raw = Raw(
    plain: set<Key>, hash: Option<string>, text: Option<string>, tag: Option<LabelText>, state: Option<ReviewState>,
    rows: Option<seq<Option<Cells>>>, single: Option<Cells>, extracted: seq<Actual>, locator: string, criticalText: bool)

  datatype Problem = Missing(key: Key) | HashMismatch | InvalidLabel | NotUnresolved | NotReviewed

  predicate Has(c: Raw, k: Key) {
    match k
    case PassageHash => c.hash.Some?
    case PassageText => c.text.Some?
    case LabelKey => c.tag.Some?
    case ReviewKey => c.state.Some?
    case _ => k in c.plain
  }

  /** Every key, the hash of its own passage, a known label, and the review state that belongs to it. */
  predicate WellFormed(c: Raw, sha: string -> string) {
    && (forall k | k in REQUIRED :: Has(c, k))
    && c.text.Some? && c.hash == Some(sha(c.text.value))
    && c.tag.Some? && c.tag.value.Known?
    && c.state == Some(if c.tag.value.tag == ReviewRequired then Unresolved else Reviewed)
  }

  method MissingKeys(c: Raw) returns (problems: seq<Problem>)
    ensures problems == [] <==> forall k | k in REQUIRED :: Has(c, k)
    ensures forall p :: p in problems <==> p.Missing? && p.key in REQUIRED && !Has(c, p.key)
  {
    problems := [];
    for j := 0 to |REQUIRED|
      invariant problems == [] <==> forall i | 0 <= i < j :: Has(c, REQUIRED[i])
      invariant forall p :: p in problems <==> p.Missing? && p.key in REQUIRED[..j] && !Has(c, p.key)
    {
      assert REQUIRED[..j + 1] == REQUIRED[..j] + [REQUIRED[j]];
      if !Has(c, REQUIRED[j]) {
        problems := problems + [Missing(REQUIRED[j])];
      }
    }
    assert REQUIRED[..|REQUIRED|] == REQUIRED;
  }

  /** `_validate_case`. */
  method ValidateCase(c: Raw, sha: string -> string) returns (problems: seq<Problem>)
    ensures problems == [] <==> WellFormed(c, sha)
    ensures forall k :: Missing(k) in problems <==> k in REQUIRED && !Has(c, k)
  {
    problems := MissingKeys(c);
    assert problems == [] ==> Has(c, REQUIRED[12]) && Has(c, REQUIRED[13]);
    if c.hash != Some(sha(if c.text.Some? then c.text.value else "")) {
      problems := problems + [HashMismatch];
    }
    if c.tag.None? || c.tag.value.OtherLabel? {
      problems := problems + [InvalidLabel];
    }
    if c.tag == Some(Known(ReviewRequired)) {
      if c.state != Some(Unresolved) {
        problems := problems + [NotUnresolved];
      }
    } else if c.state != Some(Reviewed) {
      problems := problems + [NotReviewed];
    }
  }

  /** The rows a positive case expects: its list, or its single row; some row, and all of them objects. */
  predicate HasRows(c: Raw) {
    if c.rows.Some? then c.rows.value != [] && forall r | r in c.rows.value :: r.Some? else c.single.Some?
  }

  function RowsOf(c: Raw): (r: seq<Cells>)
    requires HasRows(c)
    ensures r != []
  {
    if c.rows.None? then [c.single.value] else
      seq(|c.rows.value|, i requires 0 <= i < |c.rows.value| && c.rows.value[i].Some? => c.rows.value[i].value)
  }

  /** The case can be scored: it is well formed and, if positive, has its rows. */
  predicate Usable(c: Raw, sha: string -> string) {
    WellFormed(c, sha) && (c.tag.value.tag == Positive ==> HasRows(c))
  }

  function CaseOf(c: Raw, sha: string -> string): (r: Case)
    requires Usable(c, sha)
    ensures ValidCase(r) && r.tag == c.tag.value.tag && r.passageHash == sha(c.text.value)
  {
    Case(c.tag.value.tag, if c.tag.value.tag == Positive then RowsOf(c) else [], c.extracted, c.hash.value, c.locator, c.criticalText)
  }

  function CasesOf(raws: seq<Raw>, sha: string -> string): (r: seq<Case>)
    requires forall i | 0 <= i < |raws| :: Usable(raws[i], sha)
    ensures |r| == |raws| && forall i | 0 <= i < |r| :: r[i] == CaseOf(raws[i], sha)
  {
    seq(|raws|, i requires 0 <= i < |raws| => CaseOf(raws[i], sha))
  }

  /** The whole corpus is validated before anything is scored; a positive case without its rows is found when it is reached. */
  method ReadCorpus(raws: seq<Raw>, sha: string -> string) returns (cases: Option<seq<Case>>)
    ensures cases.None? <==> exists i :: 0 <= i < |raws| && !Usable(raws[i], sha)
    ensures cases.Some? ==> (forall i | 0 <= i < |raws| :: Usable(raws[i], sha)) && cases.value == CasesOf(raws, sha)
  {
    for k := 0 to |raws|
      invariant forall i | 0 <= i < k :: WellFormed(raws[i], sha)
    {
      var problems := ValidateCase(raws[k], sha);
      if problems != [] {
        return None;
      }
    }
    for k := 0 to |raws|
      invariant forall i | 0 <= i < k :: Usable(raws[i], sha)
    {
      if raws[k].tag.value.tag == Positive && !HasRows(raws[k]) {
        return None;
      }
    }
    cases := Some(CasesOf(raws, sha));
  }
}
