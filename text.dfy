/**
 * `String.prototype.trim` and the "missing or blank" form-field test both
 * routes use: `!field || field.trim() === ''`.
 */
module Text {
  import opened Wrappers

  /**
   * The characters `trim` removes: ECMAScript's WhiteSpace (tab, vertical tab,
   * form feed, the byte order mark and the space separators of Unicode
   * category Zs) and LineTerminator.
   */
  const Whitespace: set<char> := {
    '\U{0009}', '\U{000A}', '\U{000B}', '\U{000C}', '\U{000D}', '\U{0020}',
    '\U{00A0}', '\U{1680}',
    '\U{2000}', '\U{2001}', '\U{2002}', '\U{2003}', '\U{2004}', '\U{2005}',
    '\U{2006}', '\U{2007}', '\U{2008}', '\U{2009}', '\U{200A}',
    '\U{2028}', '\U{2029}', '\U{202F}', '\U{205F}', '\U{3000}', '\U{FEFF}'
  }

  /** Every character of `s` is whitespace (the empty string included). */
  predicate IsBlank(s: string) {
    forall i :: 0 <= i < |s| ==> s[i] in Whitespace
  }

  function TrimStart(s: string): string
    decreases |s|
  {
    if |s| > 0 && s[0] in Whitespace then TrimStart(s[1..]) else s
  }

  function TrimEnd(s: string): string
    decreases |s|
  {
    if |s| > 0 && s[|s| - 1] in Whitespace then TrimEnd(s[..|s| - 1]) else s
  }

  /** `s.trim()` */
  function Trim(s: string): string {
    TrimEnd(TrimStart(s))
  }

  lemma {:induction false} TrimStartEmptyIffBlank(s: string)
    ensures TrimStart(s) == "" <==> IsBlank(s)
    ensures TrimStart(s) != "" ==> TrimStart(s)[0] !in Whitespace
    decreases |s|
  {
    if |s| > 0 && s[0] in Whitespace {
      TrimStartEmptyIffBlank(s[1..]);
      if IsBlank(s[1..]) {
        assert forall i :: 1 <= i < |s| ==> s[i] == s[1..][i - 1];
      }
      if IsBlank(s) {
        assert forall i :: 0 <= i < |s| - 1 ==> s[1..][i] == s[i + 1];
      }
    }
  }

  lemma {:induction false} TrimEndKeepsLeadingText(s: string)
    requires s != "" && s[0] !in Whitespace
    ensures TrimEnd(s) != ""
    decreases |s|
  {
    if |s| > 1 && s[|s| - 1] in Whitespace {
      TrimEndKeepsLeadingText(s[..|s| - 1]);
    }
  }

  /** `s.trim() === ''` holds exactly when `s` consists of whitespace only. */
  lemma {:induction false} TrimEmptyIffBlank(s: string)
    ensures Trim(s) == "" <==> IsBlank(s)
  {
    TrimStartEmptyIffBlank(s);
    if TrimStart(s) != "" {
      TrimEndKeepsLeadingText(TrimStart(s));
    }
  }

  /**
   * `!field || field.trim() === ''` for a form field that may be missing:
   * true exactly when the field is absent or all whitespace.
   */
  function MissingOrBlank(field: Option<string>): (r: bool)
    ensures r <==> field.None? || IsBlank(field.value)
  {
    if field.None? || field.value == "" then true
    else
      TrimEmptyIffBlank(field.value);
      Trim(field.value) == ""
  }
}
