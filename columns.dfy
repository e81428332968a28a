/**
 * Selection of the one-hot parental-education columns: the regression model
 * carries an ordered list of feature names, and the page keeps, in order,
 * the names that start with the fixed prefix below.
 */
module FeatureColumns {

  /** The prefix shared by the one-hot parental-education columns. */
  const ParentalPrefix: string := "Parental_Education_Level_"

  /** Python's str.startswith: the first |prefix| characters of s are prefix. */
  predicate StartsWith(s: string, prefix: string) {
    |prefix| <= |s| && s[..|prefix|] == prefix
  }

  predicate IsParental(col: string) {
    StartsWith(col, ParentalPrefix)
  }

  /**
   * The list comprehension that keeps the parental columns of the regression
   * feature list. Every kept name has the prefix, came from the input, and
   * every input name with the prefix is kept.
   */
  function ParentalCols(features: seq<string>): (r: seq<string>)
    ensures |r| <= |features|
    ensures forall i :: 0 <= i < |r| ==> IsParental(r[i])
    ensures forall x :: x in r ==> x in features
    ensures forall i :: 0 <= i < |features| && IsParental(features[i]) ==> features[i] in r
  {
    if features == [] then []
    else if IsParental(features[0]) then [features[0]] + ParentalCols(features[1..])
    else ParentalCols(features[1..])
  }

  /** a can be obtained from b by deleting elements, keeping the order of the rest. */
  predicate IsSubsequence(a: seq<string>, b: seq<string>)
    decreases |b|
  {
    if a == [] then true
    else if b == [] then false
    else (a[0] == b[0] && IsSubsequence(a[1..], b[1..])) || IsSubsequence(a, b[1..])
  }

  /** The selected columns keep the relative order they have in the feature list. */
  lemma {:induction false} ParentalColsIsSubsequence(features: seq<string>)
    ensures IsSubsequence(ParentalCols(features), features)
  {
    if features != [] {
      ParentalColsIsSubsequence(features[1..]);
      var r := ParentalCols(features);
      if IsParental(features[0]) {
        assert r[0] == features[0] && r[1..] == ParentalCols(features[1..]);
      } else if r != [] {
        assert r == ParentalCols(features[1..]);
      }
    }
  }

  /** Filtering a concatenation filters each part: the order between parts is kept too. */
  lemma {:induction false} ParentalColsAppend(a: seq<string>, b: seq<string>)
    ensures ParentalCols(a + b) == ParentalCols(a) + ParentalCols(b)
  {
    if a == [] {
      assert a + b == b;
    } else {
      assert (a + b)[0] == a[0];
      assert (a + b)[1..] == a[1..] + b;
      ParentalColsAppend(a[1..], b);
    }
  }

  /**
   * Nothing is dropped and nothing is duplicated: each name with the prefix
   * occurs in the selection exactly as often as in the feature list, and each
   * other name not at all.
   */
  lemma {:induction false} ParentalColsCounts(features: seq<string>)
    ensures forall x ::
              multiset(ParentalCols(features))[x] == (if IsParental(x) then multiset(features)[x] else 0)
  {
    if features != [] {
      ParentalColsCounts(features[1..]);
      assert features == [features[0]] + features[1..];
      assert multiset(features) == multiset{features[0]} + multiset(features[1..]);
      if IsParental(features[0]) {
        assert multiset(ParentalCols(features))
          == multiset{features[0]} + multiset(ParentalCols(features[1..]));
      }
    }
  }

  /** Selecting twice selects nothing more than selecting once. */
  lemma {:induction false} ParentalColsIdempotent(features: seq<string>)
    ensures ParentalCols(ParentalCols(features)) == ParentalCols(features)
  {
    if features != [] {
      ParentalColsIdempotent(features[1..]);
      if IsParental(features[0]) {
        var rest := ParentalCols(features[1..]);
        assert ([features[0]] + rest)[0] == features[0];
        assert ([features[0]] + rest)[1..] == rest;
      }
    }
  }

  /** The selection is the whole list exactly when every name has the prefix. */
  lemma {:induction false} ParentalColsKeepsAll(features: seq<string>)
    ensures ParentalCols(features) == features <==>
      forall i :: 0 <= i < |features| ==> IsParental(features[i])
  {
    if features != [] {
      ParentalColsKeepsAll(features[1..]);
      if !IsParental(features[0]) {
        assert |ParentalCols(features)| <= |features[1..]| < |features|;
      } else if forall i :: 0 <= i < |features| ==> IsParental(features[i]) {
        assert forall i :: 0 <= i < |features[1..]| ==> IsParental(features[1..][i]) by {
          forall i | 0 <= i < |features[1..]| ensures IsParental(features[1..][i]) {
            assert features[1..][i] == features[i + 1];
          }
        }
        assert features == [features[0]] + features[1..];
      }
    }
  }
}
