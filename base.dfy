/** Value-level building blocks shared by every controller of the app:
    optional values, the two Foundation character sets used for trimming
    names, and the ordering Swift's `<` puts on strings. */
module Base {

  datatype Option<T> = None | Some(value: T) {
    function GetOr(default: T): T {
      match this
      case Some(v) => v
      case None => default
    }
  }

  // ---------------------------------------------------------------------
  // Character sets (Foundation's CharacterSet.whitespaces and
  // CharacterSet.whitespacesAndNewlines)
  // ---------------------------------------------------------------------

  /** The two character sets the controllers trim names with. */
  datatype CharClass = Whitespaces | WhitespacesAndNewlines

  /** Unicode general category Zs plus the horizontal tab. */
  predicate IsWhitespace(c: char) {
    || c == ' ' || c == '\t' || c == '\U{00A0}' || c == '\U{1680}'
    || ('\U{2000}' <= c <= '\U{200A}')
    || c == '\U{202F}' || c == '\U{205F}' || c == '\U{3000}'
  }

  /** Line feed, vertical tab, form feed, carriage return, NEL and the
      Unicode line and paragraph separators. */
  predicate IsNewline(c: char) {
    || c == '\n' || c == '\U{000B}' || c == '\U{000C}' || c == '\r'
    || c == '\U{0085}' || c == '\U{2028}' || c == '\U{2029}'
  }

  predicate InClass(cls: CharClass, c: char) {
    match cls
    case Whitespaces => IsWhitespace(c)
    case WhitespacesAndNewlines => IsWhitespace(c) || IsNewline(c)
  }

  /** Every character of `s` belongs to `cls`. */
  predicate AllIn(cls: CharClass, s: string) {
    forall k :: 0 <= k < |s| ==> InClass(cls, s[k])
  }

  // ---------------------------------------------------------------------
  // String.trimmingCharacters(in:)
  // ---------------------------------------------------------------------

  function TrimLeading(s: string, cls: CharClass): (r: string)
    ensures |r| <= |s| && r == s[|s| - |r|..]
    ensures AllIn(cls, s[..|s| - |r|])
    ensures r != [] ==> !InClass(cls, r[0])
  {
    if s != [] && InClass(cls, s[0]) then
      var r := TrimLeading(s[1..], cls);
      assert s[1..][|s| - 1 - |r|..] == s[|s| - |r|..];
      assert forall k :: 1 <= k < |s| - |r| ==> s[k] == s[1..][..|s| - 1 - |r|][k - 1];
      r
    else s
  }

  function TrimTrailing(s: string, cls: CharClass): (r: string)
    ensures |r| <= |s| && r == s[..|r|]
    ensures AllIn(cls, s[|r|..])
    ensures r != [] ==> !InClass(cls, r[|r| - 1])
  {
    if s != [] && InClass(cls, s[|s| - 1]) then
      var r := TrimTrailing(s[..|s| - 1], cls);
      assert s[..|s| - 1][..|r|] == s[..|r|];
      assert forall k :: |r| <= k < |s| - 1 ==> s[k] == s[..|s| - 1][|r|..][k - |r|];
      r
    else s
  }

  /** `s` with the leading and trailing characters of `cls` removed. */
  function Trim(s: string, cls: CharClass): (r: string)
    ensures r != [] ==> !InClass(cls, r[0]) && !InClass(cls, r[|r| - 1])
    ensures r == [] <==> AllIn(cls, s)
  {
    TrimFacts(s, cls);
    TrimTrailing(TrimLeading(s, cls), cls)
  }

  lemma TrimFacts(s: string, cls: CharClass)
    ensures var r := TrimTrailing(TrimLeading(s, cls), cls);
      && (r != [] ==> !InClass(cls, r[0]))
      && (r == [] <==> AllIn(cls, s))
  {
    var lead := TrimLeading(s, cls);
    var r := TrimTrailing(lead, cls);
    if r == [] {
      // nothing survives the leading pass: its first survivor would stay
      assert lead == [];
      forall k | 0 <= k < |s| ensures InClass(cls, s[k]) {
        assert s[k] == s[..|s| - |lead|][k];
      }
    } else {
      assert r[0] == lead[0];
      assert lead[0] == s[|s| - |lead|];
    }
  }

  /** Trimming with the larger set leaves nothing whenever trimming with the
      smaller one leaves nothing. */
  lemma TrimNewlinesEmptyIfWhitespaceEmpty(s: string)
    requires Trim(s, Whitespaces) == []
    ensures Trim(s, WhitespacesAndNewlines) == []
  {
    assert AllIn(Whitespaces, s);
  }

  // ---------------------------------------------------------------------
  // Swift's String `<`: lexicographic order on the characters
  // ---------------------------------------------------------------------

  predicate StrLess(a: string, b: string) {
    if a == [] then b != []
    else if b == [] then false
    else if a[0] == b[0] then StrLess(a[1..], b[1..])
    else a[0] < b[0]
  }

  lemma {:induction false} StrLessIrreflexive(a: string)
    ensures !StrLess(a, a)
  {
    if a != [] {
      StrLessIrreflexive(a[1..]);
    }
  }

  lemma {:induction false} StrLessTransitive(a: string, b: string, c: string)
    requires StrLess(a, b) && StrLess(b, c)
    ensures StrLess(a, c)
  {
    if a != [] && b != [] && c != [] && a[0] == b[0] && b[0] == c[0] {
      StrLessTransitive(a[1..], b[1..], c[1..]);
    }
  }

  lemma {:induction false} StrLessTotal(a: string, b: string)
    requires a != b
    ensures StrLess(a, b) || StrLess(b, a)
  {
    if a != [] && b != [] && a[0] == b[0] {
      assert a == [a[0]] + a[1..] && b == [b[0]] + b[1..];
      StrLessTotal(a[1..], b[1..]);
    }
  }

  // ---------------------------------------------------------------------
  // Misc
  // ---------------------------------------------------------------------

  /** Indices of `s` are distinct values. */
  predicate Distinct<T(==)>(s: seq<T>) {
    forall i, j :: 0 <= i < j < |s| ==> s[i] != s[j]
  }
}
