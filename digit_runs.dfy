/** The one regular expression the library ever uses, `(\d{2,})`, specialised: scanning a text left to
    right, leftmost-first, greedy and without overlap, it matches exactly the maximal runs of at least two
    ASCII digits. */
module DigitRuns {
  import opened Base

  /** What `NSRegularExpression(pattern:)` produced: the digit-run pattern, or the error it threw. */
  datatype CompiledPattern = DigitRunPattern | CompileError(message: string)

  predicate IsDigit(c: char) {
    '0' <= c <= '9'
  }

  /** A match of the pattern as the range `text[start..end]`. */
  datatype Span = Span(start: nat, end: nat)

  /** Where the run of digits that begins at `p` stops (greedy `\d` repetition). */
  function RunEnd(s: string, p: nat): (q: nat)
    requires p <= |s|
    ensures p <= q <= |s|
    ensures forall k :: p <= k < q ==> IsDigit(s[k])
    ensures q == |s| || !IsDigit(s[q])
    decreases |s| - p
  {
    if p < |s| && IsDigit(s[p]) then RunEnd(s, p + 1) else p
  }

  /** The matches the regex engine reports when it resumes its search at `p`: it tries a match at `p`;
      one of two or more digits is reported and the search resumes where it ended, otherwise the
      search moves on by one character. */
  function MatchesFrom(s: string, p: nat): seq<Span>
    requires p <= |s|
    decreases |s| - p
  {
    if p == |s| then []
    else
      var q := RunEnd(s, p);
      if q - p >= 2 then [Span(p, q)] + MatchesFrom(s, q) else MatchesFrom(s, p + 1)
  }

  /** `regex.matches(in: text, range: whole text)` */
  function Matches(s: string): seq<Span> {
    MatchesFrom(s, 0)
  }

  /** `text[i..j]` is a run of at least two digits that cannot be extended on either side. */
  ghost predicate MaximalRun(s: string, i: nat, j: nat) {
    i + 2 <= j <= |s| &&
    (forall k :: i <= k < j ==> IsDigit(s[k])) &&
    (i == 0 || !IsDigit(s[i - 1])) &&
    (j == |s| || !IsDigit(s[j]))
  }

  /** Some two adjacent digits occur at or after position `p`. */
  ghost predicate HasDigitPairFrom(s: string, p: nat) {
    exists k :: p <= k && k + 1 < |s| && IsDigit(s[k]) && IsDigit(s[k + 1])
  }

  /** `text[i..j]` is the last maximal run of at least two digits in the text. */
  ghost predicate LastMaximalRun(s: string, i: nat, j: nat) {
    MaximalRun(s, i, j) && !HasDigitPairFrom(s, j)
  }

  /** The search never resumes inside a run of digits. */
  ghost predicate AtRunBoundary(s: string, p: nat)
    requires p <= |s|
  {
    p == 0 || p == |s| || !IsDigit(s[p - 1]) || !IsDigit(s[p])
  }

  /** The matches found from `p` are none exactly when no two adjacent digits follow `p`. */
  lemma {:induction false} MatchesFromEmpty(s: string, p: nat)
    requires p <= |s|
    ensures MatchesFrom(s, p) == [] <==> !HasDigitPairFrom(s, p)
    decreases |s| - p
  {
    if p < |s| {
      var q := RunEnd(s, p);
      if q - p >= 2 {
        assert IsDigit(s[p]) && IsDigit(s[p + 1]);
      } else {
        MatchesFromEmpty(s, p + 1);
        if HasDigitPairFrom(s, p) {
          var k :| p <= k && k + 1 < |s| && IsDigit(s[k]) && IsDigit(s[k + 1]);
          assert HasDigitPairFrom(s, p + 1) by {
            assert p + 1 <= k;
          }
        }
      }
    }
  }

  /** A match found at a run boundary is a maximal run. */
  lemma MatchAtBoundaryIsMaximal(s: string, p: nat)
    requires p < |s| && AtRunBoundary(s, p) && RunEnd(s, p) - p >= 2
    ensures MaximalRun(s, p, RunEnd(s, p))
  {
    assert IsDigit(s[p]) && IsDigit(s[p + 1]);
  }

  /** The matches found from a run boundary end with the last maximal run. */
  lemma {:induction false} MatchesFromEndWithLastRun(s: string, p: nat)
    requires p <= |s| && AtRunBoundary(s, p)
    ensures MatchesFrom(s, p) != [] ==>
      var last := MatchesFrom(s, p)[|MatchesFrom(s, p)| - 1];
      LastMaximalRun(s, last.start, last.end)
    decreases |s| - p
  {
    if p < |s| {
      var q := RunEnd(s, p);
      if q - p >= 2 {
        MatchesFromEndWithLastRun(s, q);
        MatchesFromEmpty(s, q);
        var rest := MatchesFrom(s, q);
        assert MatchesFrom(s, p) == [Span(p, q)] + rest;
        if rest == [] {
          MatchAtBoundaryIsMaximal(s, p);
        } else {
          assert MatchesFrom(s, p)[|MatchesFrom(s, p)| - 1] == rest[|rest| - 1];
        }
      } else {
        MatchesFromEndWithLastRun(s, p + 1);
      }
    }
  }

  /** No maximal run ends after the last one. */
  lemma NoRunEndsLater(s: string, i: nat, j: nat, i': nat, j': nat)
    requires LastMaximalRun(s, i, j) && MaximalRun(s, i', j')
    ensures j' <= j
  {
    assert IsDigit(s[j' - 2]) && IsDigit(s[j' - 1]);
  }

  /** There is at most one last maximal run, so `LastMaximalRun` pins the answer down. */
  lemma LastMaximalRunIsUnique(s: string, i: nat, j: nat, i': nat, j': nat)
    requires LastMaximalRun(s, i, j) && LastMaximalRun(s, i', j')
    ensures i == i' && j == j'
  {
    NoRunEndsLater(s, i, j, i', j');
    NoRunEndsLater(s, i', j', i, j);
  }

  /** The text the last match covers, `results.map { text[$0.range] }.last`, or None without a match. */
  function LastMatch(s: string): (r: Option<string>)
    ensures r.None? <==> !HasDigitPairFrom(s, 0)
    ensures r.Some? ==> exists i: nat, j: nat :: LastMaximalRun(s, i, j) && r.value == s[i..j]
    ensures r.Some? ==> |r.value| >= 2
  {
    var ms := Matches(s);
    MatchesFromEmpty(s, 0);
    MatchesFromEndWithLastRun(s, 0);
    if ms == [] then None
    else
      var last := ms[|ms| - 1];
      Some(s[last.start..last.end])
  }

  /** Conversely, the last maximal run of a text is what `LastMatch` reports. */
  lemma LastMatchIsLastRun(s: string, i: nat, j: nat)
    requires LastMaximalRun(s, i, j)
    ensures LastMatch(s) == Some(s[i..j])
  {
    assert IsDigit(s[i]) && IsDigit(s[i + 1]);
    var r := LastMatch(s);
    var i': nat, j': nat :| LastMaximalRun(s, i', j') && r.value == s[i'..j'];
    LastMaximalRunIsUnique(s, i, j, i', j');
  }
}
