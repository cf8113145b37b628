/**
 * The C string primitives the plugin core relies on (`strcasecmp`, `strrchr`,
 * a suffix compare), stated over `string` = `seq<char>`.  A C string cannot
 * hold a NUL character; `Nul` marks its end inside a buffer.
 */
module CStrings {
  import opened Wrappers

  /** The string terminator. */
  const Nul: char := '\0'

  /** `tolower` in the C locale: only the ASCII capitals change. */
  function Lower(c: char): char
  {
    if 'A' <= c <= 'Z' then (c as int + 32) as char else c
  }

  /** `strcasecmp(a, b) == 0`: same length and equal characters after `Lower`. */
  predicate EqualsIgnoreCase(a: string, b: string)
  {
    |a| == |b| && forall i :: 0 <= i < |a| ==> Lower(a[i]) == Lower(b[i])
  }

  /** The suffix compare `strlen(s) >= strlen(t) && strcmp(s + strlen(s) - strlen(t), t) == 0`. */
  predicate EndsWith(s: string, suffix: string)
  {
    |s| >= |suffix| && s[|s| - |suffix|..] == suffix
  }

  /** The number of occurrences of `c` in `s`, counted from the end. */
  function Count(s: string, c: char): nat
  {
    if s == [] then 0 else Count(s[..|s| - 1], c) + (if s[|s| - 1] == c then 1 else 0)
  }

  /**
   * `strrchr(s, c)`: the position of the last occurrence of `c`, or `None`
   * (a NULL pointer) when `c` does not occur.
   */
  function LastIndexOf(s: string, c: char): (r: Option<nat>)
    ensures r.Some? ==> r.value < |s| && s[r.value] == c
    ensures r.Some? ==> forall j :: r.value < j < |s| ==> s[j] != c
    ensures r.None? ==> forall j :: 0 <= j < |s| ==> s[j] != c
  {
    if s == [] then None
    else if s[|s| - 1] == c then Some(|s| - 1)
    else LastIndexOf(s[..|s| - 1], c)
  }

  /** Counting splits over concatenation. */
  lemma {:induction false} CountAppend(a: string, b: string, c: char)
    ensures Count(a + b, c) == Count(a, c) + Count(b, c)
  {
    if b == [] {
      assert a + b == a;
    } else {
      assert (a + b)[..|a + b| - 1] == a + b[..|b| - 1];
      CountAppend(a, b[..|b| - 1], c);
    }
  }

  /** `c` occurs in `s` exactly when `strrchr` finds it. */
  lemma {:induction false} CountZeroIff(s: string, c: char)
    ensures Count(s, c) == 0 <==> LastIndexOf(s, c).None?
  {
    if s != [] {
      CountZeroIff(s[..|s| - 1], c);
    }
  }

  /** Cutting `s` at its last `c` removes exactly one `c`. */
  lemma {:induction false} CountAtLast(s: string, c: char, i: nat)
    requires LastIndexOf(s, c) == Some(i)
    ensures Count(s[..i], c) + 1 == Count(s, c)
    ensures Count(s[i..], c) == 1
  {
    CountAppend(s[..i], s[i..], c);
    assert s[..i] + s[i..] == s;
    assert s[i..] == [c] + s[i + 1..];
    CountAppend([c], s[i + 1..], c);
    assert [c][..0] == [];
    CountZeroIff(s[i + 1..], c);
  }

  /** The last occurrence is determined by any position that holds `c` with none after it. */
  lemma LastIndexOfAt(s: string, c: char, k: nat)
    requires k < |s| && s[k] == c
    requires forall j :: k < j < |s| ==> s[j] != c
    ensures LastIndexOf(s, c) == Some(k)
  {
  }
}
