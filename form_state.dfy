/** Pieces of form handling shared by the wizard and the assessment hook:
    JavaScript's notion of white space (`String.prototype.trim` and the
    regular-expression class `\s`), the email pattern `\S+@\S+\.\S+`, and
    the error dictionary with its clear-on-edit rule. */
module FormState {
  import opened Wrappers

  /** The characters ECMAScript counts as WhiteSpace or LineTerminator:
      tab, vertical tab, form feed, space, no-break space, byte order mark,
      the other Zs space separators, line feed, carriage return, and the
      line and paragraph separators. */
  predicate IsWhitespace(c: char)
  {
    c == '\t' || c == '\n' || c == '\U{000B}' || c == '\U{000C}' || c == '\r' || c == ' '
    || c == '\U{00A0}' || c == '\U{1680}' || ('\U{2000}' <= c && c <= '\U{200A}')
    || c == '\U{2028}' || c == '\U{2029}' || c == '\U{202F}' || c == '\U{205F}'
    || c == '\U{3000}' || c == '\U{FEFF}'
  }

  predicate AllWhitespace(s: string)
  {
    forall k :: 0 <= k < |s| ==> IsWhitespace(s[k])
  }

  function TrimStart(s: string): (r: string)
    ensures |r| <= |s| && r == s[|s| - |r|..]
    ensures r == [] || !IsWhitespace(r[0])
  {
    if s != [] && IsWhitespace(s[0]) then TrimStart(s[1..]) else s
  }

  function TrimEnd(s: string): (r: string)
    ensures |r| <= |s| && r == s[..|r|]
    ensures r == [] || !IsWhitespace(r[|r| - 1])
  {
    if s != [] && IsWhitespace(s[|s| - 1]) then TrimEnd(s[..|s| - 1]) else s
  }

  /** `s.trim()` */
  function Trim(s: string): string
  {
    TrimEnd(TrimStart(s))
  }

  lemma {:induction false} TrimStartEmpty(s: string)
    ensures TrimStart(s) == [] <==> AllWhitespace(s)
  {
    if s != [] && IsWhitespace(s[0]) {
      TrimStartEmpty(s[1..]);
      assert AllWhitespace(s[1..]) ==> AllWhitespace(s) by {
        if AllWhitespace(s[1..]) {
          forall k | 0 <= k < |s| ensures IsWhitespace(s[k]) {
            if k > 0 { assert s[k] == s[1..][k - 1]; }
          }
        }
      }
    }
  }

  lemma {:induction false} TrimEndKeepsLeadingNonSpace(s: string)
    requires s != [] && !IsWhitespace(s[0])
    ensures TrimEnd(s) != []
  {
    if IsWhitespace(s[|s| - 1]) {
      TrimEndKeepsLeadingNonSpace(s[..|s| - 1]);
    }
  }

  /** `!s.trim()` holds exactly when every character of `s` is white space
      (the empty string included). */
  lemma TrimEmptyIffBlank(s: string)
    ensures Trim(s) == [] <==> AllWhitespace(s)
  {
    TrimStartEmpty(s);
    var t := TrimStart(s);
    assert TrimEnd(t) == [] <==> t == [] by {
      if t != [] { TrimEndKeepsLeadingNonSpace(t); }
    }
  }

  /** `!info[key]?.trim()`: the field is missing or blank after trimming. */
  predicate BlankField(info: map<string, string>, key: string)
  {
    key !in info || Trim(info[key]) == []
  }

  /** `!info[key]`: the field is missing or the empty string. */
  predicate MissingField(info: map<string, string>, key: string)
  {
    key !in info || info[key] == []
  }

  /** `s[i..j]` is matched by `\S+`. */
  ghost predicate NonSpaceRun(s: string, i: int, j: int)
  {
    0 <= i < j <= |s| && forall k :: i <= k < j ==> !IsWhitespace(s[k])
  }

  /** `s[i..j]` is matched by `\S+@\S+\.\S+`, with the `@` at `a` and the
      `.` at `d`. */
  ghost predicate EmailMatch(s: string, i: int, a: int, d: int, j: int)
  {
    NonSpaceRun(s, i, a) && a < |s| && s[a] == '@'
    && NonSpaceRun(s, a + 1, d) && d < |s| && s[d] == '.'
    && NonSpaceRun(s, d + 1, j)
  }

  /** `/\S+@\S+\.\S+/.test(s)`: the unanchored pattern matches some
      substring of `s`. */
  ghost predicate RegexTest(s: string)
  {
    exists i, a, d, j :: EmailMatch(s, i, a, d, j)
  }

  /** An `@` at `a` with a non-space character before it, followed by a
      non-empty run of non-space characters ending just before a `.` at `d`
      that has a non-space character after it. */
  predicate EmailShapeAt(s: string, a: int, d: int)
  {
    1 <= a && a + 1 < d && d + 1 < |s|
    && s[a] == '@' && s[d] == '.' && !IsWhitespace(s[a - 1]) && !IsWhitespace(s[d + 1])
    && forall k :: a < k < d ==> !IsWhitespace(s[k])
  }

  /** A decision procedure for the email pattern, searching for the
      positions of the `@` and the `.`. */
  predicate LooksLikeEmail(s: string)
  {
    exists a, d :: 0 <= a < |s| && 0 <= d < |s| && EmailShapeAt(s, a, d)
  }

  lemma LooksLikeEmailIsRegexTest(s: string)
    ensures LooksLikeEmail(s) <==> RegexTest(s)
  {
    if LooksLikeEmail(s) {
      var a, d :| 0 <= a < |s| && 0 <= d < |s| && EmailShapeAt(s, a, d);
      assert EmailMatch(s, a - 1, a, d, d + 2);
    }
    if RegexTest(s) {
      var i, a, d, j :| EmailMatch(s, i, a, d, j);
      assert EmailShapeAt(s, a, d);
    }
  }

  /** The error dictionary. `undefined` is None: clearing an error keeps its
      key, exactly as `{...prev, [key]: undefined}` does. */
  type ErrorMap = map<string, Option<string>>

  /** `errors[key]` is truthy. */
  predicate HasError(errors: ErrorMap, key: string)
  {
    key in errors && errors[key].Some? && errors[key].value != []
  }

  /** The error dictionary a validation pass leaves behind. */
  function AsErrors(found: map<string, string>): (r: ErrorMap)
    ensures r.Keys == found.Keys
    ensures forall k :: k in found ==> r[k] == Some(found[k])
  {
    map k | k in found :: Some(found[k])
  }

  /** The clear-on-edit rule: `if (errors[key]) setErrors({...prev, [key]: undefined})`. */
  function ClearError(errors: ErrorMap, key: string): (r: ErrorMap)
    ensures !HasError(r, key)
    ensures HasError(errors, key) ==> key in r && r[key] == None
    ensures !HasError(errors, key) ==> r == errors
    ensures r.Keys == errors.Keys
    ensures forall k :: k in errors && k != key ==> r[k] == errors[k]
  {
    if HasError(errors, key) then errors[key := None] else errors
  }
}
