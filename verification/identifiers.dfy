/**
 * Identifier handling of src/index.js: `sanitize` and the two built-in
 * column preprocessors (quoted identifier and JSONB text extraction).
 */
module Identifiers {
  import opened JsStrings

  /** The characters `sanitize` keeps: `[A-Za-z0-9_]`. */
  predicate IsIdentChar(c: char) {
    ('A' <= c <= 'Z') || ('a' <= c <= 'z') || ('0' <= c <= '9') || c == '_'
  }

  /** Every character of `s` may be embedded in SQL text unescaped. */
  predicate IsClean(s: string) {
    forall i :: 0 <= i < |s| ==> IsIdentChar(s[i])
  }

  /**
   * `sanitize`: the input with every character outside `[A-Za-z0-9_]` deleted
   * (the global replace of runs of such characters by the empty string).
   */
  function Sanitize(s: string): (r: string)
    ensures IsClean(r)
    ensures |r| <= |s|
  {
    if s == [] then []
    else if IsIdentChar(s[0]) then [s[0]] + Sanitize(s[1..])
    else Sanitize(s[1..])
  }

  /** Sanitizing works character by character, so it distributes over concatenation. */
  lemma {:induction false} SanitizeConcat(a: string, b: string)
    ensures Sanitize(a + b) == Sanitize(a) + Sanitize(b)
  {
    if a == [] {
      assert a + b == b;
    } else {
      assert (a + b)[0] == a[0] && (a + b)[1..] == a[1..] + b;
      SanitizeConcat(a[1..], b);
    }
  }

  /** The result keeps the surviving characters in their original order. */
  lemma {:induction false} SanitizeIsSubsequence(s: string)
    ensures IsSubsequence(Sanitize(s), s)
  {
    if s != [] {
      SanitizeIsSubsequence(s[1..]);
      if !IsIdentChar(s[0]) && Sanitize(s[1..]) != [] {
        SubsequenceSkip(Sanitize(s[1..]), s[1..], s[0]);
      }
    }
  }

  lemma {:induction false} SubsequenceSkip(a: string, b: string, c: char)
    requires IsSubsequence(a, b) && a != [] && a[0] != c
    ensures IsSubsequence(a, [c] + b)
  {
    assert ([c] + b)[1..] == b;
  }

  /**
   * Exactly the disallowed characters are removed: every allowed character
   * occurs as often as in the input, every other character not at all.
   */
  lemma {:induction false} SanitizeCounts(s: string, c: char)
    ensures Count(Sanitize(s), c) == if IsIdentChar(c) then Count(s, c) else 0
  {
    if s != [] {
      SanitizeCounts(s[1..], c);
      if IsIdentChar(s[0]) {
        assert ([s[0]] + Sanitize(s[1..]))[1..] == Sanitize(s[1..]);
      }
    }
  }

  /** A string is left unchanged by `sanitize` exactly when it is already clean. */
  lemma {:induction false} SanitizeFixesClean(s: string)
    ensures Sanitize(s) == s <==> IsClean(s)
  {
    if s != [] && IsClean(s) {
      assert IsClean(s[1..]) by {
        forall i | 0 <= i < |s[1..]| ensures IsIdentChar(s[1..][i]) {
          assert s[1..][i] == s[i + 1];
        }
      }
      SanitizeFixesClean(s[1..]);
    }
  }

  /** Sanitizing twice is the same as sanitizing once. */
  lemma SanitizeIdempotent(s: string)
    ensures Sanitize(Sanitize(s)) == Sanitize(s)
  {
    SanitizeFixesClean(Sanitize(s));
  }

  /** A clean string contains none of the characters that could end or extend an SQL token. */
  lemma CleanHasNoSpecials(s: string)
    requires IsClean(s)
    ensures Count(s, '?') == 0 && Count(s, '"') == 0 && Count(s, '\'') == 0
  {
    CountAbsent(s, '?');
    CountAbsent(s, '"');
    CountAbsent(s, '\'');
  }

  /**
   * The column preprocessor: one of the two built-ins or a caller-supplied
   * function from the logical column name to an SQL expression.
   */
  datatype Preprocessor =
    | Default                      // defaultPreprocessor()
    | Jsonb(jsonbColumn: string)   // jsonbPreprocessor(jsonbColumn)
    | Custom(f: string -> string)  // any other function supplied by the caller

  /** `defaultPreprocessor()(column)`: the sanitized name as a double-quoted identifier. */
  function QuotedIdentifier(column: string): (r: string)
    ensures |r| == |Sanitize(column)| + 2
    ensures r[0] == '"' && r[|r| - 1] == '"'
    ensures r[1..|r| - 1] == Sanitize(column)
  {
    "\"" + Sanitize(column) + "\""
  }

  /** `jsonbPreprocessor(jsonbColumn)(column)`: text extraction of a JSONB field. */
  function JsonbField(jsonbColumn: string, column: string): (r: string)
    ensures |r| == |Sanitize(jsonbColumn)| + |Sanitize(column)| + 5
    ensures r[|r| - 1] == '\''
    ensures r[..|Sanitize(jsonbColumn)|] == Sanitize(jsonbColumn)
    ensures r[|Sanitize(jsonbColumn)|..|Sanitize(jsonbColumn)| + 4] == "->>'"
    ensures r[|Sanitize(jsonbColumn)| + 4..|r| - 1] == Sanitize(column)
  {
    Sanitize(jsonbColumn) + "->>'" + Sanitize(column) + "'"
  }

  /**
   * `preprocessor(column)`: the SQL expression a preprocessor produces for a
   * column. The built-ins embed only the sanitized names; a caller's function
   * is applied as it is.
   */
  function Preprocess(pre: Preprocessor, column: string): (r: string)
    ensures pre.Default? ==> |r| >= 2 && r[0] == '"' && r[|r| - 1] == '"' && r[1..|r| - 1] == Sanitize(column)
    ensures pre.Jsonb? ==>
              var j := Sanitize(pre.jsonbColumn);
              |r| >= |j| + 5 && r[..|j|] == j && r[|j|..|j| + 4] == "->>'" &&
              r[|j| + 4..|r| - 1] == Sanitize(column) && r[|r| - 1] == '\''
    ensures pre.Custom? ==> r == pre.f(column)
  {
    match pre
    case Default => QuotedIdentifier(column)
    case Jsonb(j) => JsonbField(j, column)
    case Custom(f) => f(column)
  }

  /** True of the two preprocessors that ship with the library. */
  predicate IsBuiltIn(pre: Preprocessor) {
    pre.Default? || pre.Jsonb?
  }

  /**
   * Whatever the column name, a built-in preprocessor yields an expression
   * with no `?` placeholder and exactly one pair of delimiting quotes:
   * double quotes for the default, single quotes for JSONB.
   */
  lemma BuiltInPreprocessorIsInert(pre: Preprocessor, column: string)
    requires IsBuiltIn(pre)
    ensures Count(Preprocess(pre, column), '?') == 0
    ensures Count(Preprocess(pre, column), '"') == (if pre.Default? then 2 else 0)
    ensures Count(Preprocess(pre, column), '\'') == (if pre.Jsonb? then 2 else 0)
  {
    var c := Sanitize(column);
    CleanHasNoSpecials(c);
    if pre.Default? {
      CountConcat("\"" + c, "\"", '?');
      CountConcat("\"", c, '?');
      CountConcat("\"" + c, "\"", '"');
      CountConcat("\"", c, '"');
      CountConcat("\"" + c, "\"", '\'');
      CountConcat("\"", c, '\'');
    } else {
      var j := Sanitize(pre.jsonbColumn);
      CleanHasNoSpecials(j);
      forall ch | ch in "?\"'"
        ensures Count(j + "->>'" + c + "'", ch) == Count(j, ch) + Count("->>'", ch) + Count(c, ch) + Count("'", ch)
      {
        CountConcat(j + "->>'" + c, "'", ch);
        CountConcat(j + "->>'", c, ch);
        CountConcat(j, "->>'", ch);
      }
    }
  }
}
