/**
 The query builder of sqlx-core in the revision modelled here: a value that
 holds the SQL text being assembled, and the constructor that starts it from
 an initial fragment.
 */
module QueryBuilder {

  /** The builder's whole state is the SQL text under construction. */
  datatype QueryBuilder = QueryBuilder(query: string)

  /**
   Starts a builder from the caller's initial text. The text is stored as
   given: nothing is trimmed, prefixed or appended. There is no precondition
   and no error result.
   */
  function New(init: string): (b: QueryBuilder)
    ensures b.query == init
    ensures |b.query| == |init|
  {
    QueryBuilder(init)
  }

  /**
   Character-by-character agreement of two texts, defined independently of
   sequence equality: both end together, and until then every position holds
   the same character.
   */
  predicate SameText(a: string, b: string)
    decreases |a|
  {
    if a == [] || b == [] then a == [] && b == []
    else a[0] == b[0] && SameText(a[1..], b[1..])
  }

  /** Agreeing character by character is exactly being the same text. */
  lemma {:induction false} SameTextIsEquality(a: string, b: string)
    ensures SameText(a, b) <==> a == b
    decreases |a|
  {
    if a != [] && b != [] {
      SameTextIsEquality(a[1..], b[1..]);
      assert a == [a[0]] + a[1..];
      assert b == [b[0]] + b[1..];
    }
  }

  /** The constructed builder's text agrees with the input at every position. */
  lemma NewCopiesText(init: string)
    ensures SameText(New(init).query, init)
  {
    SameTextIsEquality(New(init).query, init);
  }

  /**
   No separator or other text is added around the initial fragment: the only
   way to read the stored text as some prefix, then the input, then some
   suffix, is with both of them empty.
   */
  lemma NewAddsNothing(init: string, prefix: string, suffix: string)
    requires New(init).query == prefix + init + suffix
    ensures prefix == [] && suffix == []
  {
  }

  /** Builders started from equal texts are equal, and only those. */
  lemma NewInjective(a: string, c: string)
    ensures New(a) == New(c) <==> a == c
  {
  }

  /**
   Nothing besides the text is stored: every builder value is the one that
   the constructor makes from its own text.
   */
  lemma NewReachesEveryBuilder(b: QueryBuilder)
    ensures exists init :: New(init) == b
  {
    assert New(b.query) == b;
  }

  /** The unit test of the constructor: starting from "" leaves the text empty. */
  method TestNew() returns (query: string)
    ensures query == ""
  {
    var b := New("");
    query := b.query;
    assert "" == query;
  }
}
