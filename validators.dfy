/**
  The shop's own field validator `notOnlyWhitespace`, over a field value that
  may be null, with the trimming of `String.prototype.trim`.
 */
module ShopValidators {
  import opened Wrappers

  /** The error the validator reports: `{notOnlyWhitespace: true}`. */
  datatype ValidationError = NotOnlyWhitespaceError

  /** The characters `trim` strips: ECMAScript white space and line terminators. */
  predicate IsWhitespace(c: char) {
    || c == ' ' || c == '\t' || c == '\n' || c == '\r'
    || c == '\U{000B}' || c == '\U{000C}' || c == '\U{00A0}' || c == '\U{FEFF}'
    || c == '\U{1680}' || ('\U{2000}' <= c <= '\U{200A}')
    || c == '\U{2028}' || c == '\U{2029}' || c == '\U{202F}' || c == '\U{205F}' || c == '\U{3000}'
  }

  ghost predicate AllWhitespace(s: string) {
    forall i :: 0 <= i < |s| ==> IsWhitespace(s[i])
  }

  function TrimStart(s: string): string {
    if |s| > 0 && IsWhitespace(s[0]) then TrimStart(s[1..]) else s
  }

  function TrimEnd(s: string): string {
    if |s| > 0 && IsWhitespace(s[|s| - 1]) then TrimEnd(s[..|s| - 1]) else s
  }

  /**
    `s.trim()`: nothing is left exactly when every character is white space;
    otherwise what is left starts and ends with a visible character.
   */
  function Trim(s: string): (r: string)
    ensures |r| == 0 <==> AllWhitespace(s)
    ensures |r| > 0 ==> !IsWhitespace(r[0]) && !IsWhitespace(r[|r| - 1])
  {
    TrimStartEmpty(s);
    TrimEndDropsTail(TrimStart(s));
    if |TrimStart(s)| > 0 then
      TrimEndKeepsHead(TrimStart(s));
      TrimEnd(TrimStart(s))
    else
      TrimEnd(TrimStart(s))
  }

  /**
    `notOnlyWhitespace`: an error exactly when the value is present and
    consists of white space only; no error for a null value.
   */
  function NotOnlyWhitespace(value: Option<string>): (r: Option<ValidationError>)
    ensures r == Some(NotOnlyWhitespaceError) <==> value.Some? && AllWhitespace(value.value)
    ensures r.None? <==> value.None? || exists i :: 0 <= i < |value.value| && !IsWhitespace(value.value[i])
  {
    if value.Some? && |Trim(value.value)| == 0 then Some(NotOnlyWhitespaceError) else None
  }

  lemma {:induction false} TrimStartEmpty(s: string)
    ensures |TrimStart(s)| == 0 <==> AllWhitespace(s)
    ensures |TrimStart(s)| > 0 ==> !IsWhitespace(TrimStart(s)[0])
  {
    if |s| > 0 && IsWhitespace(s[0]) {
      TrimStartEmpty(s[1..]);
      assert AllWhitespace(s) <==> AllWhitespace(s[1..]) by {
        assert forall i :: 0 < i < |s| ==> s[i] == s[1..][i - 1];
      }
    }
  }

  /** Trimming the end of a string that starts with a visible character keeps that character. */
  lemma {:induction false} TrimEndKeepsHead(s: string)
    requires |s| > 0 && !IsWhitespace(s[0])
    ensures |TrimEnd(s)| > 0 && TrimEnd(s)[0] == s[0]
  {
    if IsWhitespace(s[|s| - 1]) {
      TrimEndKeepsHead(s[..|s| - 1]);
    }
  }

  /** Trimming the end leaves a string that does not end in white space. */
  lemma {:induction false} TrimEndDropsTail(s: string)
    ensures |TrimEnd(s)| <= |s|
    ensures |TrimEnd(s)| > 0 ==> !IsWhitespace(TrimEnd(s)[|TrimEnd(s)| - 1])
  {
    if |s| > 0 && IsWhitespace(s[|s| - 1]) {
      TrimEndDropsTail(s[..|s| - 1]);
    }
  }

  /** White space added before or after a value does not change the verdict. */
  lemma NotOnlyWhitespacePadding(s: string, before: string, after: string)
    requires AllWhitespace(before) && AllWhitespace(after)
    ensures NotOnlyWhitespace(Some(before + s + after)) == NotOnlyWhitespace(Some(s))
  {
    var padded := before + s + after;
    assert forall i :: 0 <= i < |s| ==> s[i] == padded[|before| + i];
    assert forall i :: 0 <= i < |padded| && !(|before| <= i < |before| + |s|) ==>
      padded[i] == (if i < |before| then before[i] else after[i - |before| - |s|]);
  }

  /** The verdict on a value is the verdict on its trimmed form. */
  lemma NotOnlyWhitespaceOfTrim(s: string)
    ensures NotOnlyWhitespace(Some(Trim(s))) == NotOnlyWhitespace(Some(s))
  {
  }
}
