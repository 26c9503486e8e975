/**
 * The naive JSON extraction of `startGeneration` in app.js: the model's free text is searched with
 * the greedy pattern `/\{[\s\S]*\}/`, and the matched slice is handed to `JSON.parse`.
 */
module JsonExtract {
  import opened Wrappers
  import opened Text

  /** Some `{` occurs somewhere before some `}`. */
  predicate HasBracePair(text: string) {
    exists i, j :: 0 <= i < j < |text| && text[i] == '{' && text[j] == '}'
  }

  /**
   * `text.match(/\{[\s\S]*\}/)[0]`, None where `match` answers null. The leftmost match starts at
   * the first `{` that has a `}` after it, and the greedy `[\s\S]*` runs on to the last `}`.
   */
  function BraceSpan(text: string): (r: Option<string>)
    ensures r.Some? <==> HasBracePair(text)
    ensures r.Some? ==>
      var i, j := IndexOf(text, '{').value, LastIndexOf(text, '}').value;
      i < j && r.value == text[i..j + 1]
    ensures r.Some? ==> |r.value| >= 2 && r.value[0] == '{' && r.value[|r.value| - 1] == '}'
  {
    match (IndexOf(text, '{'), LastIndexOf(text, '}'))
    case (Some(i), Some(j)) =>
      if i < j then Some(text[i..j + 1])
      else
        assert !HasBracePair(text) by {
          forall a, b | 0 <= a < b < |text| && text[a] == '{' ensures text[b] != '}' {
            assert text[a] in text[..i + 1];
            assert text[b] in text[j..];
          }
        }
        None
    case _ => None
  }

  /** With no `{` before the object and no `}` after it, the span is exactly the object. */
  lemma SpanOfEmbeddedObject(prefix: string, body: string, suffix: string)
    requires '{' !in prefix && '}' !in suffix
    ensures BraceSpan(prefix + "{" + body + "}" + suffix) == Some("{" + body + "}")
  {
    var obj := "{" + body + "}";
    var text := prefix + obj + suffix;
    assert prefix + "{" + body + "}" + suffix == text;
    assert text == prefix + (obj + suffix);
    IndexOfAfter(prefix, obj + suffix, '{');
    assert IndexOf(obj + suffix, '{') == Some(0);
    assert text == (prefix + obj) + suffix;
    LastIndexOfBefore(prefix + obj, suffix, '}');
    assert (prefix + obj)[|prefix + obj| - 1] == '}';
    assert text[|prefix|..|prefix + obj|] == obj;
  }

  /** What the generation step reads from the parsed object: the two preview SVG fields, if present. */
  datatype Artifact = Artifact(symbolSvg: Option<string>, footprintSvg: Option<string>)

  /** How the response text was read: parsed, no braces at all, or `JSON.parse` threw. */
  datatype Extraction = Extracted(artifact: Artifact) | NoJsonObject | MalformedJson

  /**
   * Locates the span and parses it; `parse` stands for `JSON.parse`, which answers None where it
   * would throw a SyntaxError.
   */
  function Extract(response: string, parse: string -> Option<Artifact>): (r: Extraction)
    ensures r.NoJsonObject? <==> !HasBracePair(response)
    ensures r.Extracted? <==> BraceSpan(response).Some? && parse(BraceSpan(response).value).Some?
    ensures r.Extracted? ==> Some(r.artifact) == parse(BraceSpan(response).value)
  {
    match BraceSpan(response)
    case None => NoJsonObject
    case Some(span) =>
      match parse(span)
      case None => MalformedJson
      case Some(a) => Extracted(a)
  }
}
