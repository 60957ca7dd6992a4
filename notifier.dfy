/** The attachment name of the report email (`generate_email_attachment`):
    the subject with ".xlsx" appended, every parenthesis, space and slash
    replaced by an underscore. */
module Notifier {

  /** The characters of the pattern `[() /]`. */
  predicate IsReplaced(c: char) {
    c == '(' || c == ')' || c == ' ' || c == '/'
  }

  /** `re.sub(r'[() /]', '_', s)`: same length, no replaced character left,
      each replaced character turned into '_' and every other character
      kept. */
  function Sanitize(s: string): (r: string)
    ensures |r| == |s|
    ensures forall i :: 0 <= i < |s| ==> !IsReplaced(r[i])
    ensures forall i :: 0 <= i < |s| ==> r[i] == (if IsReplaced(s[i]) then '_' else s[i])
  {
    if s == [] then []
    else [if IsReplaced(s[0]) then '_' else s[0]] + Sanitize(s[1..])
  }

  /** The attachment name: as long as `subject + ".xlsx"`, ending in
      ".xlsx", free of parentheses, spaces and slashes, and equal to the
      subject elsewhere. */
  function AttachmentName(subject: string): (name: string)
    ensures |name| == |subject| + 5
    ensures name[|subject|..] == ".xlsx"
    ensures forall i :: 0 <= i < |name| ==> !IsReplaced(name[i])
    ensures forall i :: 0 <= i < |subject| ==> name[i] == (if IsReplaced(subject[i]) then '_' else subject[i])
  {
    var full := subject + ".xlsx";
    assert forall i :: 0 <= i < 5 ==> full[|subject| + i] == ".xlsx"[i];
    Sanitize(full)
  }

  /** Sanitising twice changes nothing more. */
  lemma SanitizeIdempotent(s: string)
    ensures Sanitize(Sanitize(s)) == Sanitize(s)
  {
  }

  /** The name of the attachment sent on 14 October 2026. */
  lemma AttachmentNameExample()
    ensures AttachmentName("PO vs SO Pricing Report (14/10/26)") == "PO_vs_SO_Pricing_Report__14_10_26_.xlsx"
  {
    var name := AttachmentName("PO vs SO Pricing Report (14/10/26)");
    assert |name| == 39;
    assert forall i :: 0 <= i < 39 ==> name[i] == "PO_vs_SO_Pricing_Report__14_10_26_.xlsx"[i];
  }
}
