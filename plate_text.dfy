/** The plate-text normaliser of the browser client: `cleanPlateText`, the
    character filter that keeps only the characters `A`-`Z` and `0`-`9`, in
    their original order. Lower-case letters are dropped, not upper-cased. */
module PlateText {

  predicate IsUpper(c: char) { 'A' <= c <= 'Z' }

  predicate IsDigit(c: char) { '0' <= c <= '9' }

  /** The character class `[A-Z0-9]`. */
  predicate IsPlateChar(c: char) { IsUpper(c) || IsDigit(c) }

  predicate AllPlateChars(s: string) {
    forall i :: 0 <= i < |s| ==> IsPlateChar(s[i])
  }

  /** `text.replace(/[^A-Z0-9]/g, '')`: removes every character outside `[A-Z0-9]`. */
  function Clean(s: string): (r: string)
    ensures AllPlateChars(r)
    ensures |r| <= |s|
  {
    if s == [] then []
    else if IsPlateChar(s[0]) then [s[0]] + Clean(s[1..])
    else Clean(s[1..])
  }

  /** `r` can be obtained from `s` by deleting characters (greedy matching). */
  predicate IsSubsequence(r: string, s: string)
    decreases |s|
  {
    if r == [] then true
    else if s == [] then false
    else if r[0] == s[0] then IsSubsequence(r[1..], s[1..])
    else IsSubsequence(r, s[1..])
  }

  lemma {:induction false} SubsequenceLength(r: string, s: string)
    requires IsSubsequence(r, s)
    ensures |r| <= |s|
    decreases |s|
  {
    if r != [] {
      if r[0] == s[0] {
        SubsequenceLength(r[1..], s[1..]);
      } else {
        SubsequenceLength(r, s[1..]);
      }
    }
  }

  /** A subsequence as long as the whole sequence is the sequence itself. */
  lemma {:induction false} SubsequenceOfSameLength(r: string, s: string)
    requires IsSubsequence(r, s) && |r| == |s|
    ensures r == s
    decreases |s|
  {
    if r != [] {
      if r[0] == s[0] {
        SubsequenceOfSameLength(r[1..], s[1..]);
      } else {
        SubsequenceLength(r, s[1..]);
      }
    }
  }

  /** The cleaned text is an order-preserving subsequence of the input. */
  lemma {:induction false} CleanIsSubsequence(s: string)
    ensures IsSubsequence(Clean(s), s)
    decreases |s|
  {
    if s != [] {
      CleanIsSubsequence(s[1..]);
    }
  }

  /** Every subsequence of `s` made of plate characters is a subsequence of `Clean(s)`. */
  lemma {:induction false} PlateSubsequenceOfClean(r: string, s: string)
    requires AllPlateChars(r) && IsSubsequence(r, s)
    ensures IsSubsequence(r, Clean(s))
    decreases |s|
  {
    if r != [] {
      if r[0] == s[0] {
        PlateSubsequenceOfClean(r[1..], s[1..]);
      } else {
        PlateSubsequenceOfClean(r, s[1..]);
      }
    }
  }

  /** Reference characterisation: `Clean(s)` is the longest subsequence of `s`
      made of characters in `[A-Z0-9]`, and the only one of that length. */
  lemma CleanIsLongestPlateSubsequence(s: string, r: string)
    requires AllPlateChars(r) && IsSubsequence(r, s)
    ensures |r| <= |Clean(s)|
    ensures |r| == |Clean(s)| ==> r == Clean(s)
  {
    PlateSubsequenceOfClean(r, s);
    SubsequenceLength(r, Clean(s));
    if |r| == |Clean(s)| {
      SubsequenceOfSameLength(r, Clean(s));
    }
  }

  /** Each plate character occurs in `Clean(s)` as often as in `s`; no other character occurs. */
  lemma {:induction false} CleanCounts(s: string)
    ensures forall c :: multiset(Clean(s))[c] == if IsPlateChar(c) then multiset(s)[c] else 0
    decreases |s|
  {
    if s != [] {
      CleanCounts(s[1..]);
      assert s == [s[0]] + s[1..];
      assert multiset(s) == multiset([s[0]]) + multiset(s[1..]);
      if IsPlateChar(s[0]) {
        assert multiset(Clean(s)) == multiset([s[0]]) + multiset(Clean(s[1..]));
      }
    }
  }

  /** Cleaning distributes over concatenation. */
  lemma {:induction false} CleanAppend(a: string, b: string)
    ensures Clean(a + b) == Clean(a) + Clean(b)
    decreases |a|
  {
    if a == [] {
      assert a + b == b;
    } else {
      assert (a + b)[0] == a[0];
      assert (a + b)[1..] == a[1..] + b;
      CleanAppend(a[1..], b);
    }
  }

  /** Cleaning leaves a text unchanged exactly when it holds only plate characters. */
  lemma {:induction false} CleanUnchangedIff(s: string)
    ensures Clean(s) == s <==> AllPlateChars(s)
    decreases |s|
  {
    if s != [] && AllPlateChars(s) {
      assert AllPlateChars(s[1..]) by {
        forall i | 0 <= i < |s[1..]| ensures IsPlateChar(s[1..][i]) {
          assert s[1..][i] == s[i + 1];
        }
      }
      CleanUnchangedIff(s[1..]);
    }
  }

  /** Cleaning is idempotent. */
  lemma {:induction false} CleanIdempotent(s: string)
    ensures Clean(Clean(s)) == Clean(s)
  {
    CleanUnchangedIff(Clean(s));
  }

  /** A text without any plate character cleans to the empty text. */
  lemma {:induction false} CleanOfNoise(s: string)
    requires forall i :: 0 <= i < |s| ==> !IsPlateChar(s[i])
    ensures Clean(s) == []
    decreases |s|
  {
    if s != [] {
      assert forall i :: 0 <= i < |s[1..]| ==> s[1..][i] == s[i + 1];
      CleanOfNoise(s[1..]);
    }
  }

  /** Noise between two clean texts is dropped: they are joined directly. */
  lemma CleanDropsNoise(a: string, noise: string, b: string)
    requires AllPlateChars(a) && AllPlateChars(b)
    requires forall i :: 0 <= i < |noise| ==> !IsPlateChar(noise[i])
    ensures Clean(a + noise + b) == a + b
  {
    assert Clean(a) == a && Clean(b) == b by {
      CleanUnchangedIff(a);
      CleanUnchangedIff(b);
    }
    assert Clean(a + noise) == a by {
      CleanAppend(a, noise);
      CleanOfNoise(noise);
    }
    CleanAppend(a + noise, b);
  }
}
