/**
 * The C string vocabulary the client is written in, stated on values.
 * A C string is modelled as a NUL-free `string`; the library calls the
 * client uses (isspace, strchr, strncmp, strncpy) become the functions below.
 */
module CStrings {

  datatype Option<+T> = None | Some(value: T)

  /** isspace() in the C locale. */
  predicate IsSpace(c: char) {
    c == ' ' || c == '\t' || c == '\n' || c == '\U{000B}' || c == '\U{000C}' || c == '\r'
  }

  /** What strncpy(dst, s, n) leaves in a buffer of n characters: the first n characters of s. */
  function Take(s: string, n: nat): (r: string)
    ensures r <= s
    ensures |r| == if |s| <= n then |s| else n
  {
    if |s| <= n then s else s[..n]
  }

  /** strncmp(a, b, n) == 0. */
  function StrnEq(a: string, b: string, n: nat): (eq: bool)
    ensures a == b ==> eq
    ensures |a| < n && |b| < n ==> (eq <==> a == b)
  {
    Take(a, n) == Take(b, n)
  }

  /** strncmp(s, t, strlen(t)) == 0, i.e. t is a prefix of s. */
  function HasPrefix(s: string, t: string): (p: bool)
    ensures p <==> |t| <= |s| && s == t + s[|t|..]
  {
    |t| <= |s| && s[..|t|] == t
  }

  /** The predicate "has t as a prefix", as a value that searches can be handed. */
  function PrefixOf(t: string): string -> bool {
    s => HasPrefix(s, t)
  }

  /** strchr(s, c): the index of the first occurrence of c in s. */
  function Find(s: string, c: char): (r: Option<nat>)
    ensures r.Some? ==> r.value < |s| && s[r.value] == c && c !in s[..r.value]
    ensures r.None? <==> c !in s
  {
    if s == [] then None
    else if s[0] == c then Some(0)
    else
      match Find(s[1..], c)
      case None => None
      case Some(i) =>
        assert s[..i + 1] == [s[0]] + s[1..][..i];
        Some(i + 1)
  }

  /**
   * The least index k with from <= k < |s| and p(s[k]): the shape of every
   * "for (i = from; i < n; i++) if (...) break;" search in the client.
   */
  function FirstFrom<T>(s: seq<T>, p: T -> bool, from: nat): (r: Option<nat>)
    ensures r.Some? ==> from <= r.value < |s| && p(s[r.value])
    ensures r.Some? ==> forall j :: from <= j < r.value ==> !p(s[j])
    ensures r.None? ==> forall j :: from <= j < |s| ==> !p(s[j])
    decreases |s| - from
  {
    if from >= |s| then None
    else if p(s[from]) then Some(from)
    else FirstFrom(s, p, from + 1)
  }

  /** strchr answers the first occurrence: any k holding c with no c before it. */
  lemma FindIsFirstOccurrence(s: string, c: char, k: nat)
    requires k < |s| && s[k] == c && c !in s[..k]
    ensures Find(s, c) == Some(k)
  {
    assert s[k] in s;
  }

  /** A search answers the index of the first hit: any k with a hit at k and none between from and k. */
  lemma {:induction false} FirstFromFindsFirstHit<T>(s: seq<T>, p: T -> bool, from: nat, k: nat)
    requires from <= k < |s| && p(s[k])
    requires forall j :: from <= j < k ==> !p(s[j])
    ensures FirstFrom(s, p, from) == Some(k)
    decreases k - from
  {
    if from < k {
      FirstFromFindsFirstHit(s, p, from + 1, k);
    }
  }

  /** The input without its leading whitespace. */
  function TrimLeft(s: string): (r: string)
    ensures |r| <= |s| && r == s[|s| - |r|..]
    ensures r == [] || !IsSpace(r[0])
    ensures forall k :: 0 <= k < |s| - |r| ==> IsSpace(s[k])
    decreases |s|
  {
    if s != [] && IsSpace(s[0]) then TrimLeft(s[1..]) else s
  }

  /** The input without its trailing whitespace. */
  function TrimRight(s: string): (r: string)
    ensures |r| <= |s| && r == s[..|r|]
    ensures r == [] || !IsSpace(r[|r| - 1])
    ensures forall k :: |r| <= k < |s| ==> IsSpace(s[k])
    decreases |s|
  {
    if s != [] && IsSpace(s[|s| - 1]) then TrimRight(s[..|s| - 1]) else s
  }

  /** The input with leading and trailing whitespace removed. */
  function Trim(s: string): (r: string)
    ensures |r| <= |s|
    ensures r == [] || (!IsSpace(r[0]) && !IsSpace(r[|r| - 1]))
  {
    TrimRight(TrimLeft(s))
  }

  /** Neither end of a trimmed string is whitespace. */
  lemma TrimmedEndsAreNotSpace(s: string)
    ensures Trim(s) == [] || (!IsSpace(Trim(s)[0]) && !IsSpace(Trim(s)[|Trim(s)| - 1]))
  {
    var l := TrimLeft(s);
    var r := TrimRight(l);
    assert r == l[..|r|];
  }

  /**
   * What trimming keeps is a contiguous piece s[i..j] of the input, with
   * everything outside it whitespace.
   */
  lemma TrimKeepsAPiece(s: string)
    ensures exists i, j :: 0 <= i <= j <= |s| && Trim(s) == s[i..j]
              && (forall k :: 0 <= k < i ==> IsSpace(s[k]))
              && (forall k :: j <= k < |s| ==> IsSpace(s[k]))
  {
    var l := TrimLeft(s);
    var i := |s| - |l|;
    var r := TrimRight(l);
    var j := i + |r|;
    assert Trim(s) == s[i..j];
    assert forall k :: j <= k < |s| ==> IsSpace(s[k]) by {
      forall k | j <= k < |s|
        ensures IsSpace(s[k])
      {
        assert s[k] == l[k - i];
      }
    }
  }

  /** Leading whitespace up to the first other character is what the left trim drops. */
  lemma {:induction false} TrimLeftFrom(s: string, i: nat)
    requires i <= |s| && (i == |s| || !IsSpace(s[i]))
    requires forall k :: 0 <= k < i ==> IsSpace(s[k])
    ensures TrimLeft(s) == s[i..]
  {
    if i > 0 {
      assert s[1..][i - 1..] == s[i..];
      TrimLeftFrom(s[1..], i - 1);
    }
  }

  /** Trailing whitespace after the last other character is what the right trim drops. */
  lemma {:induction false} TrimRightTo(s: string, j: nat)
    requires j <= |s| && (j == 0 || !IsSpace(s[j - 1]))
    requires forall k :: j <= k < |s| ==> IsSpace(s[k])
    ensures TrimRight(s) == s[..j]
    decreases |s|
  {
    if j < |s| {
      assert s[..|s| - 1][..j] == s[..j];
      TrimRightTo(s[..|s| - 1], j);
    }
  }

  /**
   * The piece s[i..j] that starts at the first non-whitespace character
   * and ends after the last one is what trimming keeps.
   */
  lemma TrimKeepsThePiece(s: string, i: nat, j: nat)
    requires i <= j <= |s|
    requires i == |s| || !IsSpace(s[i])
    requires i == j || !IsSpace(s[j - 1])
    requires forall k :: 0 <= k < i ==> IsSpace(s[k])
    requires forall k :: j <= k < |s| ==> IsSpace(s[k])
    ensures Trim(s) == s[i..j]
  {
    TrimLeftFrom(s, i);
    var t := s[i..];
    if i < |s| {
      assert j > i;
    }
    assert forall k :: j - i <= k < |t| ==> IsSpace(t[k]) by {
      forall k | j - i <= k < |t|
        ensures IsSpace(t[k])
      {
        assert t[k] == s[i + k];
      }
    }
    TrimRightTo(t, j - i);
    SliceOfSuffix(s, i, j);
  }

  lemma SliceOfSuffix(s: string, i: nat, j: nat)
    requires i <= j <= |s|
    ensures s[i..][..j - i] == s[i..j]
  {
  }

  lemma SuffixOfSuffix(s: string, i: nat, j: nat)
    requires i <= j <= |s|
    ensures s[i..][j - i..] == s[j..]
  {
  }

  /** Trimming twice is trimming once. */
  lemma {:induction false} TrimIdempotent(s: string)
    ensures Trim(Trim(s)) == Trim(s)
  {
    var t := Trim(s);
    assert TrimLeft(t) == t;
    assert TrimRight(t) == t;
  }

  /** The digit printf("%X") gives for a value below 16. */
  function HexDigit(n: nat): (c: char)
    requires n < 16
    ensures ('0' <= c <= '9') || ('A' <= c <= 'F')
  {
    "0123456789ABCDEF"[n]
  }

  /** Different values below 16 print as different digits. */
  lemma HexDigitInjective(m: nat, n: nat)
    requires m < 16 && n < 16 && m != n
    ensures HexDigit(m) != HexDigit(n)
  {
  }
}
