/** Fuzzy matching: a greedy left-to-right scan with a score. Scores are kept in tenths, so that the
    0.1 per position is exact; a lower score is a better match. */
module Fuzzy {
  datatype FuzzyMatch = FuzzyMatch(matches: bool, score: int)

  const NO_MATCH := FuzzyMatch(false, 0)

  predicate IsWhitespace(c: char) {
    || '\t' <= c <= '\r' || c == ' ' || c == '\U{00a0}' || c == '\U{1680}' || '\U{2000}' <= c <= '\U{200a}'
    || c == '\U{2028}' || c == '\U{2029}' || c == '\U{202f}' || c == '\U{205f}' || c == '\U{3000}' || c == '\U{feff}'
  }

  predicate IsSeparator(c: char) {
    IsWhitespace(c) || c in "-_./:"
  }

  predicate AtWordBoundary(text: string, i: nat)
    requires i < |text|
  {
    i == 0 || IsSeparator(text[i - 1])
  }

  // ---------------------------------------------------------------------------------------
  // What a match is: an increasing choice of positions, independent of any scan

  ghost predicate Increasing(at: seq<nat>) {
    forall j, k :: 0 <= j < k < |at| ==> at[j] < at[k]
  }

  ghost predicate Embeds(query: string, text: string, at: seq<nat>) {
    && |at| == |query|
    && Increasing(at)
    && forall k :: 0 <= k < |at| ==> at[k] < |text| && text[at[k]] == query[k]
  }

  ghost predicate Subsequence(query: string, text: string) {
    exists at :: Embeds(query, text, at)
  }

  /** Every other embedding comes later, position by position. */
  ghost predicate LeftmostEmbedding(query: string, text: string, at: seq<nat>) {
    && Embeds(query, text, at)
    && forall other :: Embeds(query, text, other) ==> forall k :: 0 <= k < |at| ==> at[k] <= other[k]
  }

  lemma {:induction false} PositionsGrow(at: seq<nat>, k: nat)
    requires Increasing(at) && k < |at|
    ensures k <= at[k]
  {
    if k > 0 {
      PositionsGrow(at, k - 1);
      assert at[k - 1] < at[k];
    }
  }

  lemma LongerIsNoSubsequence(query: string, text: string)
    requires |query| > |text|
    ensures !Subsequence(query, text)
  {
    forall at ensures !Embeds(query, text, at) {
      if Embeds(query, text, at) {
        PositionsGrow(at, |query| - 1);
      }
    }
  }

  // ---------------------------------------------------------------------------------------
  // What a match is worth, as a function of its positions alone

  /** How many matches in a row end at the k-th; the first counts only at the very start of the text. */
  function Streak(at: seq<nat>, k: nat): nat
    requires k < |at|
  {
    if k == 0 then if at[0] == 0 then 1 else 0
    else if at[k] == at[k - 1] + 1 then Streak(at, k - 1) + 1
    else 0
  }

  predicate Adjoins(at: seq<nat>, k: nat)
    requires k < |at|
  {
    if k == 0 then at[0] == 0 else at[k] == at[k - 1] + 1
  }

  function Points(text: string, at: seq<nat>, k: nat): int
    requires k < |at| && at[k] < |text|
  {
    (if Adjoins(at, k) then -50 * Streak(at, k)
     else if k > 0 then 20 * (at[k] as int - at[k - 1] as int - 1)
     else 0)
    + (if AtWordBoundary(text, at[k]) then -100 else 0)
    + at[k]
  }

  function Total(text: string, at: seq<nat>, n: nat): int
    requires n <= |at| && forall k :: 0 <= k < n ==> at[k] < |text|
  {
    if n == 0 then 0 else Total(text, at, n - 1) + Points(text, at, n - 1)
  }

  function Worth(query: string, text: string, at: seq<nat>): int
    requires |at| == |query| && forall k :: 0 <= k < |at| ==> at[k] < |text|
  {
    Total(text, at, |at|) + if query == text && |query| > 0 then -1000 else 0
  }

  /** How many matches before the k-th it follows without a gap. */
  predicate RunsBack(at: seq<nat>, k: nat, n: nat)
    requires k < |at|
  {
    n <= k && forall j :: k - n < j <= k ==> at[j] == at[j - 1] + 1
  }

  /** The streak is the length of the run without a gap that ends there; the match at the very start of the text counts as
      one more. */
  lemma {:induction false} StreakMeans(at: seq<nat>, k: nat)
    requires k < |at|
    ensures if Streak(at, k) == k + 1 then at[0] == 0 && RunsBack(at, k, k)
            else && Streak(at, k) <= k && RunsBack(at, k, Streak(at, k))
                 && (if Streak(at, k) == k then at[0] != 0 else at[k - Streak(at, k)] != at[k - Streak(at, k) - 1] + 1)
  {
    if k > 0 {
      StreakMeans(at, k - 1);
    }
  }

  /** The characters after which a word begins: white space, and - _ . / : */
  predicate Separates(code: int) {
    || code in {0x2d, 0x5f, 0x2e, 0x2f, 0x3a}
    || 9 <= code <= 13 || 0x2000 <= code <= 0x200a
    || code in {0x20, 0xa0, 0x1680, 0x2028, 0x2029, 0x202f, 0x205f, 0x3000, 0xfeff}
  }

  /** What a match at position i is worth, in tenths: less by 50 for each match of a run that it is in, more by 20 for each
      character of a gap before it, less by 100 at the start of a word, and more by one for each position. */
  lemma PointsMean(text: string, at: seq<nat>, k: nat)
    requires k < |at| && at[k] < |text|
    ensures var i, before := at[k], if k == 0 then -1 else at[k - 1];
            var word := i == 0 || Separates(text[i - 1] as int);
            Points(text, at, k) ==
            i + (if word then -100 else 0)
            + (if before == i - 1 then -50 * Streak(at, k) else if k > 0 then 20 * (i - before - 1) else 0)
  {
    assert at[k] > 0 ==> (IsSeparator(text[at[k] - 1]) <==> Separates(text[at[k] - 1] as int)) by {
      if at[k] > 0 {
        SeparatorsAre(text[at[k] - 1]);
      }
    }
    hide IsSeparator, Separates;
  }

  lemma SeparatorsAre(c: char)
    ensures IsSeparator(c) <==> Separates(c as int)
  {
    assert c in "-_./:" <==> c == '-' || c == '_' || c == '.' || c == '/' || c == ':';
  }

  /** The least score, in tenths, that a match of length m can have. */
  function LeastScore(m: nat): int {
    -(25 * m * (m + 1) + 100 * m + 1000) + m * (m - 1) / 2
  }

  /** The quadratic bound -(5m(m+1)/2 + 10m + 100), in tenths. */
  function QuadraticBound(m: nat): int {
    -(25 * m * (m + 1) + 100 * m + 1000)
  }

  lemma {:induction false} StreakIsShort(at: seq<nat>, k: nat)
    requires k < |at|
    ensures Streak(at, k) <= k + 1
  {
    if k > 0 {
      StreakIsShort(at, k - 1);
    }
  }

  lemma {:induction false} TotalIsBounded(text: string, at: seq<nat>, n: nat)
    requires Increasing(at) && n <= |at| && forall k :: 0 <= k < n ==> at[k] < |text|
    ensures Total(text, at, n) >= LeastScore(n) + 1000
  {
    if n > 0 {
      var k := n - 1;
      TotalIsBounded(text, at, k);
      StreakIsShort(at, k);
      PositionsGrow(at, k);
      if k > 0 && !Adjoins(at, k) {
        assert at[k - 1] < at[k];
      }
      assert Points(text, at, k) >= -50 * n - 100 + k;
      LeastScoreStep(n);
    }
  }

  lemma LeastScoreStep(n: nat)
    requires n > 0
    ensures LeastScore(n) == LeastScore(n - 1) - 50 * n - 100 + (n - 1)
  {
    assert n * (n - 1) == (n - 1) * (n - 2) + 2 * (n - 1);
    assert 25 * n * (n + 1) == 25 * (n - 1) * n + 50 * n;
  }

  /** No embedding of an m-character query, greedy or not, scores below the quadratic bound. */
  lemma ScoreNeverBelowBound(query: string, text: string, at: seq<nat>)
    requires Embeds(query, text, at)
    ensures Worth(query, text, at) >= LeastScore(|query|) >= QuadraticBound(|query|)
  {
    TotalIsBounded(text, at, |at|);
    BoundsInOrder(|query|);
    hide LeastScore, QuadraticBound;
  }

  lemma BoundsInOrder(m: nat)
    ensures 0 >= LeastScore(m) + 1000 && LeastScore(m) >= QuadraticBound(m)
    ensures 0 >= QuadraticBound(m)
  {
    var triangle := m * (m - 1);
    assert triangle >= 0 && triangle <= m * (m + 1);
  }

  /** The bound is sharp for every length: a text of m separators, searched for itself, attains it. */
  lemma BoundIsAttained(m: nat) returns (query: string, at: seq<nat>)
    requires m > 0
    ensures |query| == m && Embeds(query, query, at) && Worth(query, query, at) == LeastScore(m)
  {
    query := seq(m, i => '-');
    at := seq(m, i requires 0 <= i < m => i);
    TotalOfIdentity(query, at, m);
  }

  lemma {:induction false} TotalOfIdentity(text: string, at: seq<nat>, n: nat)
    requires n <= |at| == |text|
    requires forall i :: 0 <= i < |at| ==> at[i] == i && text[i] == '-'
    ensures Total(text, at, n) == LeastScore(n) + 1000
    ensures forall k :: 0 <= k < n ==> Streak(at, k) == k + 1
  {
    if n > 0 {
      TotalOfIdentity(text, at, n - 1);
      var k := n - 1;
      assert k > 0 ==> Streak(at, k - 1) == k;
      assert Adjoins(at, k) && Streak(at, k) == n;
      assert k > 0 ==> text[k - 1] == '-';
      assert Points(text, at, k) == -50 * n - 100 + k;
      LeastScoreStep(n);
    }
  }

  // ---------------------------------------------------------------------------------------
  // The scan

  /** Where any embedding must be, once the scan has reached position i having matched at `at`. */
  ghost predicate NoEarlier(query: string, text: string, at: seq<nat>, i: nat) {
    forall e :: Embeds(query, text, e) ==>
      && (forall k :: 0 <= k < |at| && k < |e| ==> at[k] <= e[k])
      && (|at| < |e| ==> i <= e[|at|])
  }

  /** What the scan knows at position i: it has embedded a prefix, and nothing fits earlier. */
  ghost predicate Scanned(query: string, text: string, at: seq<nat>, i: nat) {
    && |at| <= |query|
    && Embeds(query[..|at|], text, at)
    && (|at| > 0 ==> at[|at| - 1] < i)
    && NoEarlier(query, text, at, i)
  }

  lemma NothingScanned(query: string, text: string)
    ensures Scanned(query, text, [], 0)
  {
  }

  lemma TakeFirst(query: string, text: string, at: seq<nat>, i: nat)
    requires Scanned(query, text, at, i) && |at| < |query| && i < |text| && text[i] == query[|at|]
    ensures Scanned(query, text, at + [i], i + 1)
  {
    var longer := at + [i];
    assert forall k :: 0 <= k < |at| ==> query[..|at| + 1][k] == query[..|at|][k];
    forall e | Embeds(query, text, e)
      ensures forall k :: 0 <= k < |longer| ==> longer[k] <= e[k]
      ensures |longer| < |e| ==> i + 1 <= e[|longer|]
    {
      assert i <= e[|at|];
    }
  }

  lemma SkipOther(query: string, text: string, at: seq<nat>, i: nat)
    requires Scanned(query, text, at, i) && |at| < |query| && i < |text| && text[i] != query[|at|]
    ensures Scanned(query, text, at, i + 1)
  {
  }

  lemma ScanExhausted(query: string, text: string, at: seq<nat>)
    requires Scanned(query, text, at, |text|) && |at| < |query|
    ensures !Subsequence(query, text)
  {
  }

  lemma ScanSucceeded(query: string, text: string, at: seq<nat>, i: nat)
    requires Scanned(query, text, at, i) && |at| == |query|
    ensures LeftmostEmbedding(query, text, at) && Subsequence(query, text)
  {
    assert query[..|at|] == query;
  }

  /** What one more match adds. */
  lemma OneMoreMatch(text: string, at: seq<nat>, i: nat)
    requires i < |text| && forall k :: 0 <= k < |at| ==> at[k] < |text|
    ensures var n, longer := |at|, at + [i];
            var adjoins := i == if n == 0 then 0 else at[n - 1] + 1;
            && Streak(longer, n) == (if !adjoins then 0 else if n == 0 then 1 else Streak(at, n - 1) + 1)
            && Total(text, longer, n + 1) == Total(text, at, n) + i + (if AtWordBoundary(text, i) then -100 else 0)
               + (if adjoins then -50 * Streak(longer, n) else if n > 0 then 20 * (i - at[n - 1] - 1) else 0)
  {
    TotalOfPrefix(text, at, at + [i], |at|);
  }

  /** What the loop's variables hold at position i. */
  ghost predicate Progress(query: string, text: string, at: seq<nat>, i: nat, queryIndex: nat, score: int, last: int, streak: nat) {
    && i <= |text| && queryIndex == |at| <= |query| && Scanned(query, text, at, i)
    && (forall k :: 0 <= k < |at| ==> at[k] < |text|)
    && last == (if |at| == 0 then -1 else at[|at| - 1])
    && streak == (if |at| == 0 then 0 else Streak(at, |at| - 1))
    && score == Total(text, at, |at|)
  }

  lemma Begins(query: string, text: string)
    ensures Progress(query, text, [], 0, 0, 0, -1, 0)
  {
    NothingScanned(query, text);
  }

  lemma Accepts(query: string, text: string, at: seq<nat>, i: nat, q: nat, score: int, last: int, streak: nat)
    requires Progress(query, text, at, i, q, score, last, streak) && i < |text| && q < |query| && text[i] == query[q]
    ensures var longer := if last == i - 1 then streak + 1 else 0;
            var gap := if last == i - 1 then -50 * longer else if last >= 0 then (i - last - 1) * 20 else 0;
            var boundary := if AtWordBoundary(text, i) then -100 else 0;
            Progress(query, text, at + [i], i + 1, q + 1, score + gap + boundary + i, i, longer)
  {
    TakeFirst(query, text, at, i);
    OneMoreMatch(text, at, i);
    hide Scanned, AtWordBoundary, Total, Streak;
  }

  lemma Passes(query: string, text: string, at: seq<nat>, i: nat, q: nat, score: int, last: int, streak: nat)
    requires Progress(query, text, at, i, q, score, last, streak) && i < |text| && q < |query| && text[i] != query[q]
    ensures Progress(query, text, at, i + 1, q, score, last, streak)
  {
    SkipOther(query, text, at, i);
    hide Scanned, Total, Streak;
  }

  /** The scan is over. */
  lemma Ends(query: string, text: string, at: seq<nat>, i: nat, q: nat, score: int, last: int, streak: nat)
    requires Progress(query, text, at, i, q, score, last, streak) && (i == |text| || q == |query|)
    ensures q == |at| && forall k :: 0 <= k < |at| ==> at[k] < |text|
    ensures q == |query| ==> Worth(query, text, at) == score + if query == text && |query| > 0 then -1000 else 0
    ensures q == |query| ==> Worth(query, text, at) >= QuadraticBound(|query|)
    ensures q == |query| ==> LeftmostEmbedding(query, text, at) && Subsequence(query, text)
    ensures q < |query| ==> !Subsequence(query, text)
  {
    hide Scanned, Total, Streak, QuadraticBound, LeastScore, LeftmostEmbedding, Embeds, Subsequence;
    if q == |query| {
      ScanSucceeded(query, text, at, i);
      LeftmostIsEmbedding(query, text, at);
      ScoreNeverBelowBound(query, text, at);
    } else {
      ScanExhausted(query, text, at);
    }
  }

  /** The greedy scan finds a match exactly when there is one, and scores the leftmost embedding. */
  method MatchQuery(query: string, text: string) returns (r: FuzzyMatch, ghost at: seq<nat>)
    ensures r.matches <==> Subsequence(query, text)
    ensures r.matches ==> LeftmostEmbedding(query, text, at) && r.score == Worth(query, text, at)
    ensures !r.matches ==> r == NO_MATCH
    ensures r.score >= QuadraticBound(|query|)
  {
    hide QuadraticBound, LeastScore, Embeds, LeftmostEmbedding, Subsequence, Worth, Progress, IsSeparator;
    at := [];
    BoundsInOrder(|query|);
    Begins(query, text);
    if |query| == 0 {
      Ends(query, text, [], 0, 0, 0, -1, 0);
      return FuzzyMatch(true, 0), [];
    }
    if |query| > |text| {
      LongerIsNoSubsequence(query, text);
      return NO_MATCH, [];
    }
    var queryIndex := 0;
    var score := 0;
    var lastMatchIndex := -1;
    var consecutiveMatches := 0;
    var i := 0;
    while i < |text| && queryIndex < |query|
      invariant i <= |text| && queryIndex <= |query|
      invariant Progress(query, text, at, i, queryIndex, score, lastMatchIndex, consecutiveMatches)
    {
      if text[i] == query[queryIndex] {
        Accepts(query, text, at, i, queryIndex, score, lastMatchIndex, consecutiveMatches);
        var isWordBoundary := i == 0 || IsSeparator(text[i - 1]);
        if lastMatchIndex == i - 1 {
          consecutiveMatches := consecutiveMatches + 1;
          score := score - consecutiveMatches * 50;
        } else {
          consecutiveMatches := 0;
          if lastMatchIndex >= 0 {
            score := score + (i - lastMatchIndex - 1) * 20;
          }
        }
        if isWordBoundary {
          score := score - 100;
        }
        score := score + i;
        lastMatchIndex := i;
        queryIndex := queryIndex + 1;
        at := at + [i];
      } else {
        Passes(query, text, at, i, queryIndex, score, lastMatchIndex, consecutiveMatches);
      }
      i := i + 1;
    }
    Ends(query, text, at, i, queryIndex, score, lastMatchIndex, consecutiveMatches);
    if queryIndex < |query| {
      return NO_MATCH, at;
    }
    if query == text {
      score := score - 1000;
    }
    r := FuzzyMatch(true, score);
  }

  lemma LeftmostIsEmbedding(query: string, text: string, at: seq<nat>)
    requires LeftmostEmbedding(query, text, at)
    ensures Embeds(query, text, at)
  {
  }

  lemma {:induction false} TotalOfPrefix(text: string, at: seq<nat>, longer: seq<nat>, n: nat)
    requires n <= |at| <= |longer| && at == longer[..|at|]
    requires forall k :: 0 <= k < n ==> at[k] < |text|
    ensures Total(text, longer, n) == Total(text, at, n)
    ensures forall k :: 0 <= k < n ==> Streak(longer, k) == Streak(at, k)
  {
    if n > 0 {
      TotalOfPrefix(text, at, longer, n - 1);
      assert n > 1 ==> Streak(longer, n - 2) == Streak(at, n - 2);
    }
  }

  // ---------------------------------------------------------------------------------------
  // The letter/digit swap

  predicate Letters(s: string) {
    |s| > 0 && forall i :: 0 <= i < |s| ==> 'a' <= s[i] <= 'z'
  }

  predicate Digits(s: string) {
    |s| > 0 && forall i :: 0 <= i < |s| ==> '0' <= s[i] <= '9'
  }

  /** The query is letters followed by digits, or digits followed by letters, and is read the other
      way round. */
  ghost predicate Swaps(query: string, swapped: string) {
    exists k :: 0 <= k <= |query| && SwapsAt(query, swapped, k)
  }

  ghost predicate SwapsAt(query: string, swapped: string, k: nat)
    requires k <= |query|
  {
    && (|| (Letters(query[..k]) && Digits(query[k..]))
        || (Digits(query[..k]) && Letters(query[k..])))
    && swapped == query[k..] + query[..k]
  }

  predicate IsLetter(c: char) {
    'a' <= c <= 'z'
  }

  /** The cut is where letters and digits meet. */
  lemma CutSeparatesKinds(query: string, swapped: string, k: nat)
    requires k <= |query| && SwapsAt(query, swapped, k)
    ensures 0 < k < |query|
    ensures forall i :: 0 <= i < |query| ==> ((i < k) <==> (IsLetter(query[i]) == IsLetter(query[0])))
  {
    assert forall i :: 0 <= i < k ==> query[..k][i] == query[i];
    assert forall i :: k <= i < |query| ==> query[k..][i - k] == query[i];
  }

  /** At most one cut, hence at most one swap. */
  lemma SwapIsUnique(query: string, a: string, b: string)
    requires Swaps(query, a) && Swaps(query, b)
    ensures a == b
  {
    var j :| 0 <= j <= |query| && SwapsAt(query, a, j);
    var k :| 0 <= k <= |query| && SwapsAt(query, b, k);
    CutSeparatesKinds(query, a, j);
    CutSeparatesKinds(query, b, k);
    assert j <= k ==> (j < k <==> IsLetter(query[j]) == IsLetter(query[0]));
    assert k <= j ==> (k < j <==> IsLetter(query[k]) == IsLetter(query[0]));
  }

  method LeadingRun(query: string, from: char, to: char) returns (k: nat)
    ensures k <= |query|
    ensures forall i :: 0 <= i < k ==> from <= query[i] <= to
    ensures k < |query| ==> !(from <= query[k] <= to)
  {
    k := 0;
    while k < |query| && from <= query[k] <= to
      invariant k <= |query| && forall i :: 0 <= i < k ==> from <= query[i] <= to
    {
      k := k + 1;
    }
  }

  ghost predicate SplitsAt(query: string, k: nat, from: char, to: char, from': char, to': char) {
    && 0 < k < |query|
    && (forall i :: 0 <= i < k ==> from <= query[i] <= to)
    && (forall i :: k <= i < |query| ==> from' <= query[i] <= to')
  }

  /** The cut that one of the two regular expressions looks for; 0 when it does not match. */
  method Cut(query: string, from: char, to: char, from': char, to': char) returns (k: nat)
    requires to < from' || to' < from
    ensures k > 0 ==> SplitsAt(query, k, from, to, from', to')
    ensures k == 0 ==> forall c: nat :: !SplitsAt(query, c, from, to, from', to')
  {
    k := LeadingRun(query, from, to);
    ghost var run := k;
    if k == |query| {
      k := 0;
    } else if k > 0 {
      var more := LeadingRun(query[k..], from', to');
      if k + more < |query| {
        assert !(from' <= query[k + more] <= to');
        k := 0;
      } else {
        assert forall i :: k <= i < |query| ==> query[i] == query[k..][i - k];
      }
    }
    forall c: nat | SplitsAt(query, c, from, to, from', to') ensures c == run {
      assert from' <= query[c] <= to';
    }
  }

  lemma SplitIsSwap(query: string, k: nat)
    requires k <= |query|
    ensures (SplitsAt(query, k, 'a', 'z', '0', '9') || SplitsAt(query, k, '0', '9', 'a', 'z'))
            <==> SwapsAt(query, query[k..] + query[..k], k)
  {
    assert forall i :: 0 <= i < k ==> query[..k][i] == query[i];
    assert forall i :: k <= i < |query| ==> query[k..][i - k] == query[i];
    assert forall i :: 0 <= i < |query[k..]| ==> query[k..][i] == query[k + i];
  }

  /** The empty string stands for "no swap", as in the source. */
  method SwappedQuery(query: string) returns (swapped: string)
    ensures swapped == "" <==> forall s :: !Swaps(query, s)
    ensures swapped != "" ==> Swaps(query, swapped)
  {
    var letters := Cut(query, 'a', 'z', '0', '9');
    if letters > 0 {
      SplitIsSwap(query, letters);
      swapped := query[letters..] + query[..letters];
      assert |swapped| == |query| && SwapsAt(query, swapped, letters) && Swaps(query, swapped);
      return;
    }
    var digits := Cut(query, '0', '9', 'a', 'z');
    if digits > 0 {
      SplitIsSwap(query, digits);
      swapped := query[digits..] + query[..digits];
      assert |swapped| == |query| && SwapsAt(query, swapped, digits) && Swaps(query, swapped);
      return;
    }
    swapped := "";
    forall s, k | 0 <= k <= |query| ensures !SwapsAt(query, s, k) {
      SplitIsSwap(query, k);
    }
  }

  ghost predicate Matches(query: string, text: string) {
    Subsequence(query, text) || exists s :: Swaps(query, s) && Subsequence(s, text)
  }

  /** `lower` stands for toLowerCase(). */
  method FuzzyMatchQuery(lower: string -> string, query: string, text: string) returns (r: FuzzyMatch)
    ensures r.matches <==> Matches(lower(query), lower(text))
    ensures r.score >= QuadraticBound(|lower(query)|)
    ensures !r.matches ==> r == NO_MATCH
    ensures r.matches ==> exists s, at ::
              && LeftmostEmbedding(s, lower(text), at)
              && (if Subsequence(lower(query), lower(text))
                  then s == lower(query) && r.score == Worth(s, lower(text), at)
                  else Swaps(lower(query), s) && r.score == Worth(s, lower(text), at) + 50)
  {
    hide QuadraticBound, Worth, LeftmostEmbedding, Embeds;
    var queryLower, textLower := lower(query), lower(text);
    BoundsInOrder(|queryLower|);
    var primaryMatch, at := MatchQuery(queryLower, textLower);
    if primaryMatch.matches {
      return primaryMatch;
    }
    var swappedQuery := SwappedQuery(queryLower);
    if swappedQuery == "" {
      return primaryMatch;
    }
    var swappedMatch, swappedAt := MatchQuery(swappedQuery, textLower);
    if !swappedMatch.matches {
      forall s | Swaps(queryLower, s) ensures !Subsequence(s, textLower) {
        SwapIsUnique(queryLower, s, swappedQuery);
      }
      return primaryMatch;
    }
    r := FuzzyMatch(true, swappedMatch.score + 50);
  }
}
