/**
 * `formatPrompt` (`app/routes/utils/prompts.js`): fills the summarizer's prompt
 * template by replacing every `{{videoUrl}}`, `{{title}}`, `{{vendor}}` and
 * `{{type}}` in turn, each with a global regular-expression replace.
 */
module Prompts {
  import opened Wrappers
  import opened Text

  /**
   * `s.replace(/p/g, v)`: scan left to right, replace each occurrence found and go on
   * after it (occurrences never overlap).
   */
  function ReplaceAll(s: string, p: string, v: string): (r: string)
    requires |p| > 0
    decreases |s|
    ensures IndexOf(s, p).None? ==> r == s
  {
    match IndexOf(s, p)
    case None => s
    case Some(i) => s[..i] + v + ReplaceAll(s[i + |p|..], p, v)
  }

  /** The text between the occurrences of `p` that a left-to-right scan finds. */
  function Pieces(s: string, p: string): (r: seq<string>)
    requires |p| > 0
    decreases |s|
    ensures |r| >= 1
    ensures forall k :: 0 <= k < |r| ==> IndexOf(r[k], p).None?
  {
    match IndexOf(s, p)
    case None => [s]
    case Some(i) =>
      NoOccurrenceBefore(s, p, i);
      [s[..i]] + Pieces(s[i + |p|..], p)
  }

  lemma NoOccurrenceBefore(s: string, p: string, i: nat)
    requires |p| > 0 && IndexOf(s, p) == Some(i)
    ensures IndexOf(s[..i], p).None?
  {
    forall j: nat | OccursAt(p, s[..i], j) ensures false {
      assert s[..i][j..j + |p|] == s[j..j + |p|];
      assert OccursAt(p, s, j);
    }
  }

  /** The pieces joined back with the pattern give the original text. */
  lemma {:induction false} JoinPieces(s: string, p: string)
    requires |p| > 0
    decreases |s|
    ensures Join(Pieces(s, p), p) == s
  {
    var found := IndexOf(s, p);
    if found.Some? {
      var i := found.value;
      var rest := s[i + |p|..];
      var ps := Pieces(s, p);
      assert ps == [s[..i]] + Pieces(rest, p);
      assert ps[1..] == Pieces(rest, p);
      assert Join(ps, p) == s[..i] + p + Join(Pieces(rest, p), p);
      JoinPieces(rest, p);
      assert s == s[..i] + p + rest;
    }
  }

  /**
   * Replacing all occurrences keeps the text between them verbatim: the result is
   * the same pieces joined with the replacement instead of the pattern.
   */
  lemma {:induction false} ReplaceAllJoinsPieces(s: string, p: string, v: string)
    requires |p| > 0
    decreases |s|
    ensures ReplaceAll(s, p, v) == Join(Pieces(s, p), v)
  {
    var found := IndexOf(s, p);
    if found.Some? {
      var i := found.value;
      var rest := s[i + |p|..];
      var ps := Pieces(s, p);
      assert ps == [s[..i]] + Pieces(rest, p);
      assert ps[1..] == Pieces(rest, p);
      assert Join(ps, v) == s[..i] + v + Join(Pieces(rest, p), v);
      ReplaceAllJoinsPieces(rest, p, v);
    }
  }

  /** The product fields substituted into the template (`undefined` fields arrive as the text "undefined"). */
  datatype PromptData = PromptData(youtubeUrl: string, title: string, vendor: string, productType: string)

  function FormatPrompt(template: string, data: PromptData): (r: string)
    ensures (&& !Contains(template, "{{videoUrl}}") && !Contains(template, "{{title}}")
             && !Contains(template, "{{vendor}}") && !Contains(template, "{{type}}"))
            ==> r == template
  {
    var a := ReplaceAll(template, "{{videoUrl}}", data.youtubeUrl);
    var b := ReplaceAll(a, "{{title}}", data.title);
    var c := ReplaceAll(b, "{{vendor}}", data.vendor);
    ReplaceAll(c, "{{type}}", data.productType)
  }

  /** The replacements run in order, so a placeholder carried in by an earlier value is filled too. */
  lemma SubstitutionOrder()
    ensures FormatPrompt("{{title}}", PromptData("u", "{{vendor}}", "Acme", "t")) == "Acme"
  {
    assert OccursAt("{{title}}", "{{title}}", 0);
    assert IndexOf("{{title}}", "{{videoUrl}}").None?;
    assert IndexOf("{{title}}", "{{title}}") == Some(0);
    assert ReplaceAll("{{title}}", "{{title}}", "{{vendor}}") == "{{vendor}}";
    assert OccursAt("{{vendor}}", "{{vendor}}", 0);
    assert IndexOf("{{vendor}}", "{{vendor}}") == Some(0);
    assert ReplaceAll("{{vendor}}", "{{vendor}}", "Acme") == "Acme";
    assert IndexOf("Acme", "{{type}}").None?;
  }
}
