/** `cleanupText` (src/usaxs/utils/cleanup_text.py): every character that is
    not an ASCII letter, digit or underscore becomes an underscore. */
module CleanupText {

  /** The class `[a-zA-Z0-9_]`. */
  predicate IsNameChar(c: char) {
    ('a' <= c <= 'z') || ('A' <= c <= 'Z') || ('0' <= c <= '9') || c == '_'
  }

  function CleanupText(text: string): (r: string)
    ensures |r| == |text|
    ensures forall i :: 0 <= i < |r| ==> IsNameChar(r[i])
    ensures forall i :: 0 <= i < |text| && IsNameChar(text[i]) ==> r[i] == text[i]
    ensures forall i :: 0 <= i < |text| && !IsNameChar(text[i]) ==> r[i] == '_'
  {
    if text == [] then []
    else [if IsNameChar(text[0]) then text[0] else '_'] + CleanupText(text[1..])
  }

  /** Cleaning a clean text changes nothing, so cleaning is idempotent. */
  lemma CleanupTextIdempotent(text: string)
    ensures CleanupText(CleanupText(text)) == CleanupText(text)
  {
    var once := CleanupText(text);
    assert CleanupText(once) == once by {
      forall i | 0 <= i < |once| ensures CleanupText(once)[i] == once[i] {
        assert IsNameChar(once[i]);
      }
    }
  }

  /** A text made only of name characters is returned unchanged. */
  lemma CleanTextUnchanged(text: string)
    requires forall i :: 0 <= i < |text| ==> IsNameChar(text[i])
    ensures CleanupText(text) == text
  {
    var r := CleanupText(text);
    assert forall i :: 0 <= i < |text| ==> r[i] == text[i];
  }
}
