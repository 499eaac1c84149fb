/**
  voiceprint/helpers.py `sanitize_name` (and its private copy `_sanitize_name`
  in voiceprint/library.py): turn a display name into a Unix file-name stem
  by replacing ' ', '-', '/' and '\' with '_' and lower-casing the result.
 */
module NameSanitizer {
  import opened Text

  /** `s.replace(target, replacement)` for one-character arguments: every occurrence is replaced. */
  function Replace(s: string, target: char, replacement: char): (r: string)
    ensures |r| == |s|
    ensures forall i :: 0 <= i < |s| ==> r[i] == (if s[i] == target then replacement else s[i])
  {
    if s == [] then []
    else
      var last := s[|s| - 1];
      Replace(s[..|s| - 1], target, replacement) + [if last == target then replacement else last]
  }

  /** The four characters a file name must not carry. */
  predicate IsSeparator(c: char) {
    c == ' ' || c == '-' || c == '/' || c == '\\'
  }

  /** The chain of `replace` calls followed by `lower()`. */
  function SanitizeName(name: string): string {
    Lower(Replace(Replace(Replace(Replace(name, ' ', '_'), '-', '_'), '/', '_'), '\\', '_'))
  }

  /**
    Character by character: each separator becomes '_', every other character
    is only lower-cased; so the length is kept, and no separator and no upper
    case letter is left.
   */
  lemma SanitizeNameChars(name: string)
    ensures var r := SanitizeName(name);
      && |r| == |name|
      && (forall i :: 0 <= i < |name| ==> r[i] == if IsSeparator(name[i]) then '_' else LowerChar(name[i]))
      && (forall i :: 0 <= i < |r| ==> !IsSeparator(r[i]) && !IsUpperAscii(r[i]))
  {
    var r := SanitizeName(name);
    forall i | 0 <= i < |name|
      ensures r[i] == if IsSeparator(name[i]) then '_' else LowerChar(name[i])
      ensures !IsSeparator(r[i])
    {
      var c := name[i];
      if !IsSeparator(c) {
        assert !IsSeparator(LowerChar(c));
      }
    }
  }

  /** A sanitised name is already sanitised, and equal to its own lower case. */
  lemma SanitizeNameIdempotent(name: string)
    ensures SanitizeName(SanitizeName(name)) == SanitizeName(name)
    ensures Lower(SanitizeName(name)) == SanitizeName(name)
  {
    var r := SanitizeName(name);
    SanitizeNameChars(name);
    SanitizeNameChars(r);
    assert SanitizeName(r) == r;
    assert Lower(r) == r;
  }
}
