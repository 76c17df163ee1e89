/** Failure-carrying wrappers and the Python exception taxonomy the model raises. */
module Common {

  datatype Option<+T> = None | Some(value: T)

  datatype Result<+R, +E> = Ok(value: R) | Err(error: E)

  datatype Outcome<+E> = Pass | Fail(error: E)

  /** The Python exception classes the modelled code raises or lets escape. */
  datatype ErrorKind =
    | ValueError
    | TypeError
    | EnvironmentError
    | ImportError
    | AttributeError
    | IndexError
    | UnboundLocalError
    | SystemExit
    | KeyboardInterrupt

  /** Whether the class derives from `Exception`, so that `except Exception` catches it;
      `SystemExit` and `KeyboardInterrupt` derive from `BaseException` only. */
  predicate IsException(kind: ErrorKind) {
    kind != SystemExit && kind != KeyboardInterrupt
  }

  /** An exception: its class and what its message is about (a namespace,
      a variable name, a function name, or the text of a wrapped error). */
  datatype Error = Error(kind: ErrorKind, msg: string)

  /** Python's `str.lower()` restricted to ASCII letters. */
  function Lower(s: string): (r: string)
    ensures |r| == |s|
    ensures forall i :: 0 <= i < |s| ==> r[i] == LowerChar(s[i])
  {
    if s == [] then [] else [LowerChar(s[0])] + Lower(s[1..])
  }

  function LowerChar(c: char): char {
    if 'A' <= c <= 'Z' then (c as int - 'A' as int + 'a' as int) as char else c
  }

  /** `s.lower() == w` for a lower-case `w`, stated character by character. */
  predicate SameIgnoringCase(s: string, w: string) {
    |s| == |w| && forall i :: 0 <= i < |s| ==> LowerChar(s[i]) == w[i]
  }

  lemma LowerIsSameIgnoringCase(s: string, w: string)
    ensures Lower(s) == w <==> SameIgnoringCase(s, w)
  {
    if SameIgnoringCase(s, w) {
      assert forall i :: 0 <= i < |s| ==> Lower(s)[i] == w[i];
    }
  }

  /** `sep.join(parts)` */
  function Join(parts: seq<string>, sep: string): string {
    if parts == [] then ""
    else if |parts| == 1 then parts[0]
    else parts[0] + sep + Join(parts[1..], sep)
  }

  /** The elements of `s` that satisfy `p`, in order (a list comprehension with a filter). */
  function Keep<T>(s: seq<T>, p: T -> bool): (r: seq<T>)
    ensures |r| <= |s|
    ensures forall x :: x in r ==> x in s && p(x)
    ensures forall i :: 0 <= i < |s| && p(s[i]) ==> s[i] in r
  {
    if s == [] then [] else (if p(s[0]) then [s[0]] else []) + Keep(s[1..], p)
  }

  lemma {:induction false} KeepAppend<T>(a: seq<T>, b: seq<T>, p: T -> bool)
    ensures Keep(a + b, p) == Keep(a, p) + Keep(b, p)
  {
    if a == [] {
      assert a + b == b;
    } else {
      assert (a + b)[1..] == a[1..] + b;
      KeepAppend(a[1..], b, p);
    }
  }

  /** Filtering a list extended by one element. */
  lemma KeepSnoc<T>(s: seq<T>, x: T, p: T -> bool)
    ensures Keep(s + [x], p) == Keep(s, p) + (if p(x) then [x] else [])
  {
    KeepAppend(s, [x], p);
    KeepSingle(x, p);
  }

  lemma {:induction false} KeepSingle<T>(x: T, p: T -> bool)
    ensures Keep([x], p) == if p(x) then [x] else []
  {
    assert [x][1..] == [];
  }
}
