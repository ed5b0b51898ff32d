/** The edit distance that `strsim::levenshtein` computes, defined here so
    that the ranking of macro suggestions can be stated against it. */
module Strsim {

  function Min3(a: nat, b: nat, c: nat): (m: nat)
    ensures m <= a && m <= b && m <= c
    ensures m == a || m == b || m == c
  {
    if a <= b && a <= c then a else if b <= c then b else c
  }

  /** Least number of single-character insertions, deletions and
      substitutions that turn `a` into `b`; never more than the longer
      length, since substituting along the shorter string and inserting the
      rest always works. */
  function Levenshtein(a: string, b: string): (d: nat)
    ensures d <= if |a| < |b| then |b| else |a|
    decreases |a| + |b|
  {
    if |a| == 0 then |b|
    else if |b| == 0 then |a|
    else Min3(Levenshtein(a[1..], b) + 1,
              Levenshtein(a, b[1..]) + 1,
              Levenshtein(a[1..], b[1..]) + (if a[0] == b[0] then 0 else 1))
  }

  /** Distance zero means the strings are the same. */
  lemma {:induction false} LevenshteinZeroIffEqual(a: string, b: string)
    ensures Levenshtein(a, b) == 0 <==> a == b
    decreases |a| + |b|
  {
    if |a| > 0 && |b| > 0 {
      LevenshteinZeroIffEqual(a[1..], b[1..]);
      if a == b {
        assert a[1..] == b[1..];
      }
      if Levenshtein(a, b) == 0 {
        assert a[0] == b[0] && a[1..] == b[1..];
        assert a == [a[0]] + a[1..] && b == [b[0]] + b[1..];
      }
    }
  }

  /** The distance is at least the difference of the lengths. */
  lemma {:induction false} LevenshteinAtLeastLengthGap(a: string, b: string)
    ensures Levenshtein(a, b) >= |a| - |b| && Levenshtein(a, b) >= |b| - |a|
    decreases |a| + |b|
  {
    if |a| > 0 && |b| > 0 {
      LevenshteinAtLeastLengthGap(a[1..], b);
      LevenshteinAtLeastLengthGap(a, b[1..]);
      LevenshteinAtLeastLengthGap(a[1..], b[1..]);
    }
  }
}
