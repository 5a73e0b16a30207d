/**
 * The operator catalogue of src/index.js: the ordered suffix list `filterArray`,
 * the token-to-template map `conditionMap`, and the cast allow-list `dbTypes`.
 */
module Operators {
  import opened JsStrings

  /** The comparison operators a filter key may end with. */
  datatype Operator = Eq | Gt | Lt | NotIn | In | Not | Gte | Lte
  {
    /** The suffix that selects this operator in a filter key: two to six characters. */
    function Token(): (r: string)
      ensures 2 <= |r| <= 6
    {
      match this
      case Eq => "eq"
      case Gt => "gt"
      case Lt => "lt"
      case NotIn => "not_in"
      case In => "in"
      case Not => "not"
      case Gte => "gte"
      case Lte => "lte"
    }

    /**
     * `conditionMap[token]`: the SQL text placed after the column expression,
     * a comparison applied to a `?` placeholder.
     */
    function Template(): (r: string)
      ensures |r| >= 3 && (r[0] == '=' || r[0] == '<' || r[0] == '>')
    {
      match this
      case Eq => "= ?"
      case Gt => "> ?"
      case Lt => "< ?"
      case NotIn => "<> ANY(?)"
      case In => "= ANY(?)"
      case Not => "<> ?"
      case Gte => ">= ?"
      case Lte => "<= ?"
    }
  }

  /** `filterArray`: suffixes in the order in which they are tried. */
  const FilterArray: seq<Operator> := [Eq, Gt, Lt, NotIn, In, Not, Gte, Lte]

  /** `dbTypes`: the casts a cast function may ask for; "" means "no cast". */
  const DbTypes: seq<string> := [
    "integer", "bigint", "numeric", "float", "boolean", "date", "time",
    "timestamp", "timestampz", "interval", "double", "char", "varchar",
    "text", "uuid", ""
  ]

  /** Where an operator sits in the catalogue. */
  function Position(op: Operator): (i: nat)
    ensures i < |FilterArray| && FilterArray[i] == op
  {
    match op
    case Eq => 0
    case Gt => 1
    case Lt => 2
    case NotIn => 3
    case In => 4
    case Not => 5
    case Gte => 6
    case Lte => 7
  }

  /** Every operator has a place in the catalogue, and tokens identify operators. */
  lemma CatalogueIsComplete(op: Operator)
    ensures op in FilterArray
    ensures forall other: Operator :: other.Token() == op.Token() ==> other == op
  {
  }

  /**
   * Every template binds exactly one value: it holds exactly one `?` and
   * no quote characters.
   */
  lemma TemplateHasOnePlaceholder(op: Operator)
    ensures Count(op.Template(), '?') == 1
    ensures Count(op.Template(), '"') == 0
    ensures Count(op.Template(), '\'') == 0
  {
    var t := op.Template();
    var k := if op == NotIn then 7 else if op == In then 6 else |t| - 1;
    CountOnce(t, '?', k);
    CountAbsent(t, '"');
    CountAbsent(t, '\'');
  }

  lemma CountOnce(s: string, c: char, k: int)
    requires 0 <= k < |s| && s[k] == c
    requires forall i :: 0 <= i < |s| && i != k ==> s[i] != c
    ensures Count(s, c) == 1
  {
    assert s == s[..k] + [c] + s[k + 1..];
    CountAbsent(s[..k], c);
    CountAbsent(s[k + 1..], c);
    CountConcat(s[..k] + [c], s[k + 1..], c);
    CountConcat(s[..k], [c], c);
  }

  /** The last three characters of a token, `#` standing in for a missing one. */
  function TokenTail(op: Operator): (char, char, char) {
    match op
    case Eq => ('#', 'e', 'q')
    case Gt => ('#', 'g', 't')
    case Lt => ('#', 'l', 't')
    case NotIn => ('_', 'i', 'n')
    case In => ('#', 'i', 'n')
    case Not => ('n', 'o', 't')
    case Gte => ('g', 't', 'e')
    case Lte => ('l', 't', 'e')
  }

  /** `tail` holds the last three characters of `s`, `#` standing in for a missing one. */
  predicate IsTailOf(tail: (char, char, char), s: string) {
    |s| >= 2 && tail.2 == s[|s| - 1] && tail.1 == s[|s| - 2] &&
    (|s| >= 3 ==> tail.0 == s[|s| - 3]) && (|s| < 3 <==> tail.0 == '#')
  }

  lemma TokenTailIsTail(op: Operator)
    ensures IsTailOf(TokenTail(op), op.Token())
  {
  }

  /**
   * Tokens overlap as suffixes in one way only: `in` is a suffix of `not_in`.
   * Every other pair of distinct tokens is suffix-free.
   */
  lemma TokenSuffixPairs(a: Operator, b: Operator)
    requires EndsWith(b.Token(), a.Token())
    ensures a == b || (a == In && b == NotIn)
  {
    TokenTailIsTail(a);
    TokenTailIsTail(b);
    SuffixTailsAgree(a.Token(), b.Token(), TokenTail(a), TokenTail(b));
    TokenTailsDetermine(a, b);
  }

  /**
   * When `x` ends `y`, their tails (last three characters, `#` for a missing
   * one) agree on every character `x` has.
   */
  lemma SuffixTailsAgree(x: string, y: string, tx: (char, char, char), ty: (char, char, char))
    requires EndsWith(y, x) && IsTailOf(tx, x) && IsTailOf(ty, y)
    ensures tx.1 == ty.1 && tx.2 == ty.2
    ensures tx.0 != '#' ==> tx.0 == ty.0
  {
    assert y[|y| - |x|..][|x| - 1] == y[|y| - 1];
    assert y[|y| - |x|..][|x| - 2] == y[|y| - 2];
    if |x| >= 3 {
      assert y[|y| - |x|..][|x| - 3] == y[|y| - 3];
    }
  }

  /** Matching tails (on the characters the shorter token has) single out the pair. */
  lemma TokenTailsDetermine(a: Operator, b: Operator)
    requires TokenTail(a).1 == TokenTail(b).1 && TokenTail(a).2 == TokenTail(b).2
    requires TokenTail(a).0 != '#' ==> TokenTail(a).0 == TokenTail(b).0
    ensures a == b || (a == In && b == NotIn)
  {
  }
}
