/** C string helpers the front-end code leans on: strrchr, strstr and
    strcmp. A C string is modelled by the characters before its terminator,
    so a `string` here never stands for anything past the NUL. */
module Text {

  datatype Option<T> = None | Some(value: T)

  /** strrchr: the position of the last occurrence of ch, or None (NULL). */
  function LastIndex(s: string, ch: char): (r: Option<nat>)
    ensures r.None? <==> ch !in s
    ensures r.Some? ==> r.value < |s| && s[r.value] == ch
    ensures r.Some? ==> forall k | r.value < k < |s| :: s[k] != ch
    decreases |s|
  {
    if |s| == 0 then None
    else if s[|s| - 1] == ch then Some(|s| - 1)
    else LastIndex(s[..|s| - 1], ch)
  }

  /** pat occurs in s starting at position i. */
  predicate OccursAt(s: string, pat: string, i: nat) {
    i + |pat| <= |s| && s[i..i + |pat|] == pat
  }

  /** strstr, searching from position `from` on: the first position at
      which pat occurs, or None (NULL). */
  function FindFrom(s: string, pat: string, from: nat): (r: Option<nat>)
    ensures r.Some? ==> from <= r.value && OccursAt(s, pat, r.value)
    ensures r.Some? ==> forall j | from <= j < r.value :: !OccursAt(s, pat, j)
    ensures r.None? ==> forall j | from <= j :: !OccursAt(s, pat, j)
    decreases |s| - from
  {
    if from + |pat| > |s| then None
    else if s[from..from + |pat|] == pat then Some(from)
    else FindFrom(s, pat, from + 1)
  }

  /** The sign of strcmp: bytes compared in order, the first difference
      decides, and a proper prefix comes first. */
  function Strcmp(a: string, b: string): (r: int)
    ensures -1 <= r <= 1
    ensures r == 0 <==> a == b
    decreases |a|
  {
    if |a| == 0 && |b| == 0 then 0
    else if |a| == 0 then -1
    else if |b| == 0 then 1
    else if a[0] < b[0] then -1
    else if a[0] > b[0] then 1
    else
      assert a == [a[0]] + a[1..] && b == [b[0]] + b[1..];
      Strcmp(a[1..], b[1..])
  }

  /** The first difference decides: after a common prefix of length k, a
      smaller byte or the end of a puts a first. */
  lemma {:induction false} StrcmpFirstDifference(a: string, b: string, k: nat)
    requires k <= |a| && k <= |b| && a[..k] == b[..k]
    requires (k < |a| && k < |b| && a[k] < b[k]) || k == |a| < |b|
    ensures Strcmp(a, b) < 0
    decreases k
  {
    if k > 0 {
      assert a[0] == a[..k][0] == b[..k][0] == b[0];
      assert a[1..][..k - 1] == a[..k][1..] == b[..k][1..] == b[1..][..k - 1];
      StrcmpFirstDifference(a[1..], b[1..], k - 1);
    }
  }

  /** Swapping the arguments negates the result. */
  lemma {:induction false} StrcmpAntisymmetric(a: string, b: string)
    ensures Strcmp(b, a) == -Strcmp(a, b)
    decreases |a|
  {
    if |a| > 0 && |b| > 0 && a[0] == b[0] {
      StrcmpAntisymmetric(a[1..], b[1..]);
    }
  }

  /** strcmp orders strings transitively. */
  lemma {:induction false} StrcmpTransitive(a: string, b: string, c: string)
    requires Strcmp(a, b) <= 0 && Strcmp(b, c) <= 0
    ensures Strcmp(a, c) <= 0
    decreases |a|
  {
    if |a| > 0 && |b| > 0 && |c| > 0 && a[0] == b[0] == c[0] {
      StrcmpTransitive(a[1..], b[1..], c[1..]);
    }
  }
}
