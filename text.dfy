/**
  String helpers the source takes from JavaScript: `trim`, `toLowerCase`, `toUpperCase`
  and `includes`. Case mapping is ASCII only and white space is the ASCII white space.
*/
module Text {

  /** The characters `String.prototype.trim` strips and the regular-expression class `\s` matches. */
  predicate IsSpace(c: char) {
    c == ' ' || c == '\t' || c == '\n' || c == '\r' || c as int == 11 || c as int == 12
  }

  function ToLowerChar(c: char): char {
    if 'A' <= c <= 'Z' then (c as int + 32) as char else c
  }

  function ToUpperChar(c: char): char {
    if 'a' <= c <= 'z' then (c as int - 32) as char else c
  }

  /** `s.toLowerCase()` */
  function Lower(s: string): (r: string)
    ensures |r| == |s|
    ensures forall i :: 0 <= i < |s| ==> r[i] == ToLowerChar(s[i])
  {
    if s == [] then [] else [ToLowerChar(s[0])] + Lower(s[1..])
  }

  /** `s.toUpperCase()` */
  function Upper(s: string): (r: string)
    ensures |r| == |s|
    ensures forall i :: 0 <= i < |s| ==> r[i] == ToUpperChar(s[i])
  {
    if s == [] then [] else [ToUpperChar(s[0])] + Upper(s[1..])
  }

  lemma LowerIdempotent(s: string)
    ensures Lower(Lower(s)) == Lower(s)
  {
    assert forall i :: 0 <= i < |s| ==> Lower(Lower(s))[i] == Lower(s)[i];
  }

  lemma UpperIdempotent(s: string)
    ensures Upper(Upper(s)) == Upper(s)
  {
    assert forall i :: 0 <= i < |s| ==> Upper(Upper(s))[i] == Upper(s)[i];
  }

  predicate NoLowerLetters(s: string) {
    forall i :: 0 <= i < |s| ==> !('a' <= s[i] <= 'z')
  }

  predicate NoUpperLetters(s: string) {
    forall i :: 0 <= i < |s| ==> !('A' <= s[i] <= 'Z')
  }

  /**
    The same tests, one character at a time from index `i` on; a literal string is checked
    by evaluating these.
  */
  predicate NoLowerFrom(s: string, i: nat)
    decreases |s| - i
  {
    i >= |s| || (!('a' <= s[i] <= 'z') && NoLowerFrom(s, i + 1))
  }

  predicate NoUpperFrom(s: string, i: nat)
    decreases |s| - i
  {
    i >= |s| || (!('A' <= s[i] <= 'Z') && NoUpperFrom(s, i + 1))
  }

  predicate NoSpaceFrom(s: string, i: nat)
    decreases |s| - i
  {
    i >= |s| || (!IsSpace(s[i]) && NoSpaceFrom(s, i + 1))
  }

  lemma {:induction false} NoLowerFromAll(s: string, i: nat)
    requires NoLowerFrom(s, i)
    ensures forall k :: i <= k < |s| ==> !('a' <= s[k] <= 'z')
    decreases |s| - i
  {
    if i < |s| {
      NoLowerFromAll(s, i + 1);
    }
  }

  lemma {:induction false} NoUpperFromAll(s: string, i: nat)
    requires NoUpperFrom(s, i)
    ensures forall k :: i <= k < |s| ==> !('A' <= s[k] <= 'Z')
    decreases |s| - i
  {
    if i < |s| {
      NoUpperFromAll(s, i + 1);
    }
  }

  lemma {:induction false} NoSpaceFromAll(s: string, i: nat)
    requires NoSpaceFrom(s, i)
    ensures forall k :: i <= k < |s| ==> !IsSpace(s[k])
    decreases |s| - i
  {
    if i < |s| {
      NoSpaceFromAll(s, i + 1);
    }
  }

  /** A string without lower-case letters is its own upper-cased form. */
  lemma UpperOfNoLower(s: string)
    requires NoLowerLetters(s)
    ensures Upper(s) == s
  {
  }

  /** A string without upper-case letters is its own lower-cased form. */
  lemma LowerOfNoUpper(s: string)
    requires NoUpperLetters(s)
    ensures Lower(s) == s
  {
  }

  /** Lower-casing forgets any earlier upper-casing: a case-insensitive test cannot tell them apart. */
  lemma LowerOfUpper(s: string)
    ensures Lower(Upper(s)) == Lower(s)
  {
    assert forall i :: 0 <= i < |s| ==> Lower(Upper(s))[i] == Lower(s)[i];
  }

  /** The number of white-space characters at the front of `s`. */
  function LeadingSpaces(s: string): (n: nat)
    ensures n <= |s|
    ensures forall i :: 0 <= i < n ==> IsSpace(s[i])
    ensures n < |s| ==> !IsSpace(s[n])
  {
    if s == [] || !IsSpace(s[0]) then 0 else 1 + LeadingSpaces(s[1..])
  }

  /** The number of white-space characters at the back of `s`. */
  function TrailingSpaces(s: string): (n: nat)
    ensures n <= |s|
    ensures forall i :: |s| - n <= i < |s| ==> IsSpace(s[i])
    ensures n < |s| ==> !IsSpace(s[|s| - 1 - n])
  {
    if s == [] || !IsSpace(s[|s| - 1]) then 0 else 1 + TrailingSpaces(s[..|s| - 1])
  }

  /** A string that `trim` leaves as it is: empty, or neither end is white space. */
  predicate IsTrimmed(s: string) {
    s == [] || (!IsSpace(s[0]) && !IsSpace(s[|s| - 1]))
  }

  /** `s.trim()` */
  function Trim(s: string): (r: string)
    ensures IsTrimmed(r)
    ensures |r| <= |s|
    ensures IsTrimmed(s) ==> r == s
  {
    var t := s[LeadingSpaces(s)..];
    t[..|t| - TrailingSpaces(t)]
  }

  /** `trim` removes white space at the two ends and nothing else. */
  lemma TrimDropsOnlySpaces(s: string)
    ensures exists i, j :: 0 <= i <= j <= |s| && Trim(s) == s[i..j]
                           && (forall k :: 0 <= k < i ==> IsSpace(s[k]))
                           && (forall k :: j <= k < |s| ==> IsSpace(s[k]))
  {
    var i := LeadingSpaces(s);
    var t := s[i..];
    var j := i + |t| - TrailingSpaces(t);
    assert Trim(s) == s[i..j];
    assert forall k :: j <= k < |s| ==> IsSpace(s[k]) by {
      forall k | j <= k < |s| ensures IsSpace(s[k]) {
        assert s[k] == t[k - i];
      }
    }
  }

  lemma TrimIdempotent(s: string)
    ensures Trim(Trim(s)) == Trim(s)
  {
  }

  /** `s.trim() === ''` exactly when `s` consists of white space only. */
  lemma TrimEmptyIff(s: string)
    ensures Trim(s) == [] <==> forall k :: 0 <= k < |s| ==> IsSpace(s[k])
  {
    var i := LeadingSpaces(s);
    var t := s[i..];
    if forall k :: 0 <= k < |s| ==> IsSpace(s[k]) {
      assert i == |s|;
    }
    if Trim(s) == [] {
      assert TrailingSpaces(t) == |t|;
      assert i == |s|;
    }
  }

  /** Case mapping never creates or removes white space, so trimmed text stays trimmed. */
  lemma LowerKeepsTrimmed(s: string)
    requires IsTrimmed(s)
    ensures IsTrimmed(Lower(s))
  {
  }

  lemma UpperKeepsTrimmed(s: string)
    requires IsTrimmed(s)
    ensures IsTrimmed(Upper(s))
  {
  }

  predicate IsPrefix(t: string, s: string) {
    |t| <= |s| && s[..|t|] == t
  }

  /** `s.includes(t)` */
  predicate Contains(s: string, t: string)
    decreases |s|
  {
    IsPrefix(t, s) || (|s| > 0 && Contains(s[1..], t))
  }

  /** `t` occurs in `s` starting at position `i`. */
  predicate OccursAt(s: string, t: string, i: int) {
    0 <= i && i + |t| <= |s| && s[i..i + |t|] == t
  }

  /** `includes` holds exactly when `t` occurs at some position of `s`. */
  lemma {:induction false} ContainsIff(s: string, t: string)
    ensures Contains(s, t) <==> exists i :: OccursAt(s, t, i)
    decreases |s|
  {
    if |s| > 0 {
      ContainsIff(s[1..], t);
      if exists i :: OccursAt(s, t, i) {
        var i :| OccursAt(s, t, i);
        if i > 0 {
          assert s[1..][i - 1..i - 1 + |t|] == t;
          assert OccursAt(s[1..], t, i - 1);
        } else {
          assert IsPrefix(t, s);
        }
      }
      if Contains(s[1..], t) {
        var i :| OccursAt(s[1..], t, i);
        assert s[i + 1..i + 1 + |t|] == t;
        assert OccursAt(s, t, i + 1);
      }
      if IsPrefix(t, s) {
        assert OccursAt(s, t, 0);
      }
    } else {
      if IsPrefix(t, s) {
        assert OccursAt(s, t, 0);
      }
    }
  }

  /** Every string includes the empty string, so an empty search term matches everything. */
  lemma ContainsEmpty(s: string)
    ensures Contains(s, [])
  {
  }

  /** The search filters' test: `field.toLowerCase().includes(term.toLowerCase())`. */
  predicate MatchesTerm(field: string, term: string) {
    Contains(Lower(field), Lower(term))
  }

  /** A field matches a search term exactly when the lower-cased term occurs in the lower-cased field. */
  lemma MatchesTermIff(field: string, term: string)
    ensures MatchesTerm(field, term) <==> exists i :: OccursAt(Lower(field), Lower(term), i)
  {
    var f, t := Lower(field), Lower(term);
    ContainsIff(f, t);
    assert MatchesTerm(field, term) == Contains(f, t);
    if MatchesTerm(field, term) {
      var i :| OccursAt(f, t, i);
      assert exists j :: OccursAt(Lower(field), Lower(term), j);
    } else {
      assert !exists j :: OccursAt(f, t, j);
    }
  }

  lemma EmptyTermMatches(field: string)
    ensures MatchesTerm(field, "")
  {
    ContainsEmpty(Lower(field));
  }

  /** Case-insensitive equality, `a.toLowerCase() === b.toLowerCase()`. */
  predicate EqualIgnoringCase(a: string, b: string) {
    Lower(a) == Lower(b)
  }
}
