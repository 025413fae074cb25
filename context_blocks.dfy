/**
  The text helpers of the retrieval service (`src/context/service.py`) and of
  its older twin (`src/context.py`): `_trim`, which bounds a chunk or a query,
  and `_format_context_block`, which renders a retrieved document for the
  review prompt.
*/
module ContextBlocks {
  import opened Maybe
  import opened PyText
  import opened VectorStore

  /** `_trim(text, max_chars)`. */
  function Trim(text: string, maxChars: int): string {
    var t := Strip(text);
    if |t| <= maxChars then t else PyTake(t, maxChars - 3) + "..."
  }

  /**
    A text that fits is only stripped; a longer one keeps a prefix of its
    stripped form and ends in `"..."`, and then, when `maxChars >= 3`, is
    exactly `maxChars` long.
  */
  lemma TrimSpec(text: string, maxChars: int)
    ensures |Strip(text)| <= maxChars ==> Trim(text, maxChars) == Strip(text)
    ensures |Strip(text)| > maxChars ==>
              var r := Trim(text, maxChars);
              3 <= |r| <= |Strip(text)| + 3 && r[|r| - 3..] == "..." && r[..|r| - 3] == Strip(text)[..|r| - 3]
    ensures maxChars >= 3 ==> |Trim(text, maxChars)| <= maxChars
    ensures maxChars >= 3 && |Strip(text)| > maxChars ==> |Trim(text, maxChars)| == maxChars
  {
  }

  /** With room for the ellipsis, trimming twice is trimming once. */
  lemma TrimIdempotent(text: string, maxChars: int)
    requires maxChars >= 3
    ensures Trim(Trim(text, maxChars), maxChars) == Trim(text, maxChars)
  {
    var t := Strip(text);
    var r := Trim(text, maxChars);
    TrimSpec(text, maxChars);
    assert r == [] || (!IsSpace(r[0]) && !IsSpace(r[|r| - 1])) by {
      if |t| > maxChars {
        assert r[|r| - 1] == '.';
        if |r| > 3 {
          assert r[0] == t[0];
        } else {
          assert r[0] == '.';
        }
      }
    }
    StripFixed(r);
  }

  /** A string with a non-whitespace character is not blank. */
  lemma NonBlankAt(s: string, i: int)
    requires 0 <= i < |s| && !IsSpace(s[i])
    ensures NonBlank(s)
  {
    BlankAll(s);
  }

  /** A trimmed non-blank text is non-blank. */
  lemma TrimNonBlank(text: string, maxChars: int)
    requires NonBlank(text)
    ensures NonBlank(Trim(text, maxChars))
  {
    var r := Trim(text, maxChars);
    TrimSpec(text, maxChars);
    if |Strip(text)| <= maxChars {
      NonBlankAt(r, 0);
    } else {
      assert r[|r| - 1] == '.';
      NonBlankAt(r, |r| - 1);
    }
  }

  /** `doc.end_line and doc.end_line != doc.start_line`. */
  predicate HasRange(doc: VectorDocument) {
    doc.endLine.Some? && doc.endLine.value != 0 && doc.endLine != doc.startLine
  }

  /** `doc.label` is truthy. */
  predicate HasTag(doc: VectorDocument) {
    doc.tag.Some? && doc.tag.value != ""
  }

  /**
    The location of a block: the file, then `:start` when the start line is
    known, then `-end` when the end line is non-zero and differs from it.
  */
  function Location(doc: VectorDocument): (loc: string)
    ensures StartsWith(loc, doc.filePath)
    ensures doc.startLine.None? <==> loc == doc.filePath
    ensures doc.startLine.Some? ==> StartsWith(loc, doc.filePath + ":" + IntToStr(doc.startLine.value))
    ensures doc.startLine.Some? && !HasRange(doc) ==> loc == doc.filePath + ":" + IntToStr(doc.startLine.value)
    ensures doc.startLine.Some? && HasRange(doc) ==>
              EndsWith(loc, "-" + IntToStr(doc.endLine.value))
    ensures doc.startLine.Some? && HasRange(doc) ==>
              loc == doc.filePath + ":" + IntToStr(doc.startLine.value) + "-" + IntToStr(doc.endLine.value)
  {
    if doc.startLine.None? then doc.filePath
    else
      var at := doc.filePath + ":" + IntToStr(doc.startLine.value);
      if HasRange(doc) then at + ("-" + IntToStr(doc.endLine.value)) else at
  }

  /**
    `_format_context_block`: a header `[Source: location]`, with ` (label)` after
    it when the label is non-empty, then a newline and the content.
  */
  function FormatContextBlock(doc: VectorDocument): (r: string)
    ensures StartsWith(r, "[Source: " + Location(doc) + "]")
    ensures EndsWith(r, "\n" + doc.content)
    ensures HasTag(doc) ==> StartsWith(r[|"[Source: " + Location(doc) + "]"|..], " (" + doc.tag.value + ")")
    ensures !HasTag(doc) ==> r == "[Source: " + Location(doc) + "]" + "\n" + doc.content
    ensures HasTag(doc) ==> r == "[Source: " + Location(doc) + "]" + " (" + doc.tag.value + ")" + "\n" + doc.content
  {
    var header := "[Source: " + Location(doc) + "]";
    var tag := if HasTag(doc) then " (" + doc.tag.value + ")" else "";
    var r := header + (tag + ("\n" + doc.content));
    assert r[|header|..] == tag + ("\n" + doc.content);
    assert r[|r| - |doc.content| - 1..] == "\n" + doc.content;
    r
  }

  /** `[_format_context_block(doc) for doc in docs]`. */
  function FormattedBlocks(docs: seq<VectorDocument>): (blocks: seq<string>)
    ensures |blocks| == |docs|
  {
    seq(|docs|, i requires 0 <= i < |docs| => FormatContextBlock(docs[i]))
  }
}
