/**
 * The C string functions the credential callback relies on, over NUL-free
 * character sequences (the end of the sequence plays the terminating NUL).
 * Each character stands for one byte of the C string: text in a multi-byte
 * encoding is given as its bytes, one character per byte.
 * Each is defined the way the C library walks the bytes, and then proved
 * equal to a plain prefix or length statement.
 */
module CStrings {

  /** A C string's contents: no embedded NUL. */
  type CString = s: string | '\0' !in s

  /** The first `n` characters of `s`, or all of it when it is shorter. */
  function Prefix(s: CString, n: nat): (p: CString)
    ensures |p| == if |s| < n then |s| else n
    ensures s == p + s[|p|..]
  {
    var k := if |s| < n then |s| else n;
    assert forall c :: c in s[..k] ==> c in s;
    s[..k]
  }

  /** strnlen(s, n): counts characters up to NUL, looking at no more than `n`. */
  function StrNLen(s: CString, n: nat): (len: nat)
    ensures len <= n && len <= |s|
  {
    if n == 0 || |s| == 0 then 0 else 1 + StrNLen(s[1..], n - 1)
  }

  /** strncmp(a, b, n) == 0: the first `n` characters agree, a NUL ending the comparison. */
  predicate StrNCmpEqual(a: CString, b: CString, n: nat)
  {
    if n == 0 then true
    else if |a| == 0 || |b| == 0 then |a| == |b|
    else a[0] == b[0] && StrNCmpEqual(a[1..], b[1..], n - 1)
  }

  /** strcmp(a, b) == 0. */
  predicate StrCmpEqual(a: CString, b: CString)
  {
    if |a| == 0 || |b| == 0 then |a| == |b|
    else a[0] == b[0] && StrCmpEqual(a[1..], b[1..])
  }

  /** The string that strlcpy(dst, src, size) leaves in `dst`: at most size - 1 characters. */
  function StrLCpy(src: CString, size: nat): (dst: CString)
    requires size > 0
  {
    if size == 1 || |src| == 0 then [] else [src[0]] + StrLCpy(src[1..], size - 1)
  }

  /** Taking a prefix commutes with removing the first character. */
  lemma PrefixCons(s: CString, n: nat)
    requires |s| > 0 && n > 0
    ensures Prefix(s, n) == [s[0]] + Prefix(s[1..], n - 1)
  {
  }

  lemma {:induction false} StrNLenIsMin(s: CString, n: nat)
    ensures StrNLen(s, n) == if |s| < n then |s| else n
  {
    if n != 0 && |s| != 0 {
      StrNLenIsMin(s[1..], n - 1);
    }
  }

  lemma {:induction false} StrNCmpEqualIsPrefixEqual(a: CString, b: CString, n: nat)
    ensures StrNCmpEqual(a, b, n) <==> Prefix(a, n) == Prefix(b, n)
  {
    if n != 0 && |a| != 0 && |b| != 0 {
      StrNCmpEqualIsPrefixEqual(a[1..], b[1..], n - 1);
      PrefixCons(a, n);
      PrefixCons(b, n);
    }
  }

  lemma {:induction false} StrCmpEqualIsEqual(a: CString, b: CString)
    ensures StrCmpEqual(a, b) <==> a == b
  {
    if |a| != 0 && |b| != 0 {
      StrCmpEqualIsEqual(a[1..], b[1..]);
      assert a == [a[0]] + a[1..];
      assert b == [b[0]] + b[1..];
    }
  }

  lemma {:induction false} StrLCpyIsPrefix(src: CString, size: nat)
    requires size > 0
    ensures StrLCpy(src, size) == Prefix(src, size - 1)
  {
    if size != 1 && |src| != 0 {
      StrLCpyIsPrefix(src[1..], size - 1);
      PrefixCons(src, size - 1);
    }
  }
}
