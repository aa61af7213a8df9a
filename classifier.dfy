/**
 * The classifier and responder of `EmailProcessor`: one call each to a
 * text-generation service, whose answer is taken as an oracle value.
 */
module Classifier {
  import opened Wrappers
  import opened Text

  /** An email record; every key of the source dictionary may be absent. */
  datatype Email = Email(
    id: Option<string>,
    sender: Option<string>,
    subject: Option<string>,
    body: Option<string>,
    timestamp: Option<string>)

  /** The two requests sent to the text-generation service. */
  datatype Prompt =
    | ClassifyPrompt(email: Email)
    | ReplyPrompt(email: Email, classification: string)

  /** What `chat.completions.create(...)` gives back: an exception, or a
      completion whose first message content may be null. */
  datatype ApiReply = Raised | Returned(content: Option<string>)

  /** `valid_categories`. */
  const ValidCategories: set<string> :=
    {"complaint", "inquiry", "feedback", "support_request", "other"}

  /** The model's raw answer stripped and lower-cased. */
  function Canonical(raw: string): string {
    Lower(Strip(raw))
  }

  /** The canonical form has no whitespace at its ends and no upper-case letter. */
  lemma CanonicalForm(raw: string)
    ensures IsStripped(Canonical(raw)) && IsLowered(Canonical(raw))
  {
    LowerKeepsStripped(Strip(raw));
    LowerIsLowered(Strip(raw));
  }

  /** The label kept from the model's answer: its canonical form when that is a
      valid category, `"other"` otherwise. */
  function Normalize(raw: string): (category: string)
    ensures category in ValidCategories
  {
    var c := Canonical(raw);
    if c in ValidCategories then c else "other"
  }

  /** `classify_email`: `None` exactly when the call raised or returned no
      content (then `.strip()` raises and the handler turns it into `None`);
      otherwise a valid category, never the model's text as such. */
  function ClassifyEmail(reply: ApiReply): (r: Option<string>)
    ensures r.None? <==> reply.Raised? || reply.content.None?
    ensures r.Some? ==> r.value in ValidCategories
  {
    match reply
    case Raised => None
    case Returned(None) => None
    case Returned(Some(text)) => Some(Normalize(text))
  }

  /** `generate_response`: the completion's content; `None` when the call raised
      or the content was null. Never raises. */
  function GenerateResponse(reply: ApiReply): (r: Option<string>)
    ensures r.Some? <==> reply.Returned? && reply.content.Some?
    ensures reply.Returned? ==> r == reply.content
  {
    match reply
    case Raised => None
    case Returned(content) => content
  }

  /** Canonicalising twice is canonicalising once. */
  lemma CanonicalIdempotent(raw: string)
    ensures Canonical(Canonical(raw)) == Canonical(raw)
  {
    var c := Canonical(raw);
    CanonicalForm(raw);
    StripStripped(c);
    LowerLowered(c);
  }

  /** Every valid category is already in canonical form. */
  lemma ValidCategoriesCanonical(v: string)
    requires v in ValidCategories
    ensures Canonical(v) == v
  {
    assert IsStripped(v) && IsLowered(v);
    StripStripped(v);
    LowerLowered(v);
  }

  /** A model that answers exactly a valid category gets that category back. */
  lemma ClassifyValidAnswer(v: string)
    requires v in ValidCategories
    ensures ClassifyEmail(Returned(Some(v))) == Some(v)
  {
    ValidCategoriesCanonical(v);
  }

  /** An answer whose canonical form is a category is classified as that category. */
  lemma ClassifyKnownAnswer(raw: string)
    requires Canonical(raw) in ValidCategories
    ensures ClassifyEmail(Returned(Some(raw))) == Some(Canonical(raw))
  {
  }

  /** An answer whose canonical form is not a category is classified `"other"`. */
  lemma ClassifyUnknownAnswer(raw: string)
    requires Canonical(raw) !in ValidCategories
    ensures ClassifyEmail(Returned(Some(raw))) == Some("other")
  {
  }

  /** Normalising a valid category leaves it unchanged, so normalising is idempotent. */
  lemma NormalizeIdempotent(raw: string)
    ensures Normalize(Normalize(raw)) == Normalize(raw)
  {
    ValidCategoriesCanonical(Normalize(raw));
  }

  /** Surrounding whitespace in the model's answer does not change the category. */
  lemma NormalizeIgnoresPadding(p: string, raw: string, q: string)
    requires AllSpace(p) && AllSpace(q)
    ensures Normalize(p + raw + q) == Normalize(raw)
  {
    StripIgnoresPadding(p, raw, q);
    assert Canonical(p + raw + q) == Canonical(raw);
  }

  lemma CanonicalIgnoresCase(raw: string)
    ensures Canonical(Lower(raw)) == Canonical(raw)
  {
    StripLower(raw);
    LowerIsLowered(Strip(raw));
    LowerLowered(Lower(Strip(raw)));
  }

  /** Letter case in the model's answer does not change the category. */
  lemma NormalizeIgnoresCase(raw: string)
    ensures Normalize(Lower(raw)) == Normalize(raw)
  {
    CanonicalIgnoresCase(raw);
  }

  lemma CanonicalOfStripped(s: string)
    requires IsStripped(s)
    ensures Canonical(s) == Lower(s)
  {
    StripStripped(s);
  }

  lemma CapitalisedWord(s: string)
    requires s == "Complaint"
    ensures IsStripped(s) && Lower(s) == "complaint"
  {
    assert LowerChar('C') == 'c';
    assert forall i :: 1 <= i < |s| ==> !IsUpper(s[i]);
  }

  lemma PaddedWord(raw: string)
    requires raw == "  Complaint\n"
    ensures raw == raw[..2] + raw[2..11] + raw[11..]
    ensures AllSpace(raw[..2]) && AllSpace(raw[11..]) && raw[2..11] == "Complaint"
  {
  }

  /** `"  Complaint\n"` is read as `"complaint"`. */
  lemma PaddedCapitalisedAnswer(raw: string)
    requires raw == "  Complaint\n"
    ensures Normalize(raw) == "complaint"
  {
    PaddedWord(raw);
    var p, s, q := raw[..2], raw[2..11], raw[11..];
    NormalizeIgnoresPadding(p, s, q);
    CapitalisedWord(s);
    CanonicalOfStripped(s);
  }

  lemma ShoutedWord(s: string)
    requires s == "SPAM"
    ensures IsStripped(s) && Lower(s) == "spam"
  {
    assert LowerChar('S') == 's' && LowerChar('P') == 'p' && LowerChar('A') == 'a' && LowerChar('M') == 'm';
  }

  /** An answer outside the vocabulary, such as `"SPAM"`, becomes `"other"`
      and still counts as a classification, not a failure. */
  lemma OutOfVocabularyAnswer(raw: string)
    requires raw == "SPAM"
    ensures Canonical(raw) == "spam"
    ensures Normalize(raw) == "other"
    ensures ClassifyEmail(Returned(Some(raw))) == Some("other")
  {
    ShoutedWord(raw);
    CanonicalOfStripped(raw);
    assert forall v :: v in ValidCategories ==> |v| != |Canonical(raw)|;
    ClassifyUnknownAnswer(raw);
  }
}
