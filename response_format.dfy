/**
 * `ChatBot._format_response`, which both chat-bot base classes define with the
 * same body: keep at most the first 195 characters, cut them back to the last
 * space, and mark a shortened response with "...".
 */
module ResponseFormat {
  import opened PyStrings

  /** The slice bound of `text[:195]`. */
  const MaxLength := 195

  const Ellipsis := "..."

  /** `len(text[:195])`. */
  function HeadLength(text: string): (n: nat)
    ensures n <= MaxLength && n <= |text|
    ensures n == MaxLength || n == |text|
  {
    if |text| < MaxLength then |text| else MaxLength
  }

  /**
   * The part of `text` the response keeps: the first 195 characters, cut just
   * before the last space among them when there is one.
   */
  function Kept(text: string): (k: string)
    ensures |k| <= HeadLength(text) && k == text[..|k|]
    ensures ' ' in text[..HeadLength(text)] ==>
      |k| < HeadLength(text) && text[|k|] == ' ' && forall i :: |k| < i < HeadLength(text) ==> text[i] != ' '
    ensures ' ' !in text[..HeadLength(text)] ==> k == text[..HeadLength(text)]
  {
    var head := text[..HeadLength(text)];
    var lastSpace := RFind(head, ' ');
    if lastSpace != -1 then
      assert forall i :: lastSpace < i < |head| ==> text[i] == head[i];
      head[..lastSpace]
    else head
  }

  /** `_format_response(text)`. */
  function FormatResponse(text: string): (r: string)
    ensures |r| <= MaxLength + |Ellipsis|
    ensures r == Kept(text) || r == Kept(text) + Ellipsis
    ensures r == Kept(text) + Ellipsis <==> |Kept(text)| < |text|
  {
    var kept := Kept(text);
    if |text| > |kept| then kept + Ellipsis else kept
  }

  /** A response of at most 195 characters without a space comes back unchanged. */
  lemma ShortWordUnchanged(text: string)
    requires |text| <= MaxLength && ' ' !in text
    ensures FormatResponse(text) == text
  {
    assert text[..HeadLength(text)] == text;
  }

  /**
   * Text that already fits still loses everything from its last space on:
   * the length test comes after the cut, so the cut itself counts as truncation.
   */
  lemma ShortTextLosesLastWord(text: string)
    requires |text| <= MaxLength && ' ' in text
    ensures FormatResponse(text) != text
    ensures FormatResponse(text) == text[..RFind(text, ' ')] + Ellipsis
  {
    assert text[..HeadLength(text)] == text;
    var k := Kept(text);
    assert |k| == RFind(text, ' ');
  }

  /** "hello world" comes back as "hello...". */
  lemma HelloWorldLosesWorld()
    ensures FormatResponse("hello world") == "hello..."
  {
    ShortTextLosesLastWord("hello world");
    assert RFind("hello world", ' ') == 5;
    assert "hello world"[..5] == "hello";
  }

  /**
   * The evident intent: a response that fits is left alone; a longer one is
   * cut back to the last space of its first 195 characters and marked "...".
   */
  function FormatResponseIntended(text: string): (r: string)
    ensures |text| <= MaxLength ==> r == text
    ensures |r| <= MaxLength + |Ellipsis|
    ensures |text| > MaxLength ==>
      |r| >= |Ellipsis| && r[|r| - |Ellipsis|..] == Ellipsis && r[..|r| - |Ellipsis|] == text[..|r| - |Ellipsis|]
  {
    if |text| <= MaxLength then text
    else
      var k := Kept(text);
      assert (k + Ellipsis)[..|k|] == k;
      k + Ellipsis
  }

  /** On text that does not fit, the intended version and the original agree. */
  lemma IntendedAgreesWhenTooLong(text: string)
    requires |text| > MaxLength
    ensures FormatResponseIntended(text) == FormatResponse(text)
  {
  }
}
