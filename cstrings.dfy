/**
 * NUL-terminated character buffers, as the C code builds them with
 * malloc, strcpy and strcat.  A buffer "holds" a string when the string's
 * characters are followed by a NUL; what lies after that NUL is garbage
 * that no string function reads.
 */
module CStrings {

  const NUL: char := '\0'

  /** A C string cannot contain its own terminator. */
  predicate NoNul(s: string) {
    forall i :: 0 <= i < |s| ==> s[i] != NUL
  }

  /** `a` holds the C string `s`: its characters, then a NUL, inside the allocation. */
  ghost predicate Holds(a: array<char>, s: string)
    reads a
  {
    NoNul(s) && |s| < a.Length && a[..|s|] == s && a[|s|] == NUL
  }

  lemma NoNulConcat(s: string, t: string)
    requires NoNul(s) && NoNul(t)
    ensures NoNul(s + t)
  {
    forall i | 0 <= i < |s + t|
      ensures (s + t)[i] != NUL
    {
      if i >= |s| { assert (s + t)[i] == t[i - |s|]; }
    }
  }

  /** strlen: the index of the first NUL. */
  method StrLen(a: array<char>) returns (n: nat)
    requires exists k :: 0 <= k < a.Length && a[k] == NUL
    ensures n < a.Length && a[n] == NUL
    ensures forall i :: 0 <= i < n ==> a[i] != NUL
  {
    n := 0;
    while a[n] != NUL
      invariant n < a.Length
      invariant forall i :: 0 <= i < n ==> a[i] != NUL
      invariant exists k :: n <= k < a.Length && a[k] == NUL
      decreases a.Length - n
    {
      n := n + 1;
    }
  }

  /** Once a buffer holds `s`, strlen finds exactly |s|. */
  method LengthOfHeld(a: array<char>, ghost s: string) returns (n: nat)
    requires Holds(a, s)
    ensures n == |s|
  {
    n := StrLen(a);
  }

  /**
   * Writes `s` and a terminating NUL into `a` from index `at` on, as
   * strcpy(a + at, s) does; every other cell keeps its value.
   */
  method CopyAt(a: array<char>, at: nat, s: string)
    requires NoNul(s) && at + |s| < a.Length
    modifies a
    ensures a[at..at + |s|] == s && a[at + |s|] == NUL
    ensures forall i :: 0 <= i < at ==> a[i] == old(a[i])
    ensures forall i :: at + |s| < i < a.Length ==> a[i] == old(a[i])
  {
    var j := 0;
    while j < |s|
      invariant 0 <= j <= |s|
      invariant a[at..at + j] == s[..j]
      invariant forall i :: 0 <= i < at ==> a[i] == old(a[i])
      invariant forall i :: at + j <= i < a.Length ==> a[i] == old(a[i])
    {
      a[at + j] := s[j];
      j := j + 1;
    }
    a[at + |s|] := NUL;
  }

  /** strcpy(a, s). */
  method StrCpy(a: array<char>, s: string)
    requires NoNul(s) && |s| < a.Length
    modifies a
    ensures Holds(a, s)
    ensures forall i :: |s| < i < a.Length ==> a[i] == old(a[i])
  {
    CopyAt(a, 0, s);
  }

  /** strcat(a, s) on a buffer that holds `prefix`: it then holds prefix + s. */
  method StrCat(a: array<char>, ghost prefix: string, s: string)
    requires Holds(a, prefix) && NoNul(s) && |prefix| + |s| < a.Length
    modifies a
    ensures Holds(a, prefix + s)
    ensures forall i :: |prefix| + |s| < i < a.Length ==> a[i] == old(a[i])
  {
    var n := LengthOfHeld(a, prefix);
    CopyAt(a, n, s);
    NoNulConcat(prefix, s);
    assert a[..|prefix| + |s|] == a[..n] + a[n..n + |s|];
  }
}
