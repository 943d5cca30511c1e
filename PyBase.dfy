/** Python values, exceptions and the few `str` methods the shim relies on. */
module PyBase {

  datatype Option<+T> = None | Some(value: T)

  /** The exceptions the shim raises or lets through. */
  datatype PyError =
    | KeyError
    | ValueError
    | TypeError
    | AttributeError
    | NotImplementedError
    | ImportError
    | RegexError

  /** A call that returns a value or raises. */
  datatype Outcome<+T> = Ok(value: T) | Raise(error: PyError)

  /** A pendulum instant, known here only by the three renderings the shim reads:
      `to_date_string()`, `isoformat()` and `strftime("%Y%m%dT%H%M%S")`. */
  datatype Timestamp = Timestamp(ds: string, ts: string, tsNodash: string)

  /** The keyword-argument values that flow through the shim. */
  datatype PyValue =
    | PyNone
    | PyBool(b: bool)
    | PyInt(i: int)
    | PyStr(s: string)
    | PyTuple(items: seq<PyValue>)
    | PyTime(t: Timestamp)
    | PyClass(moduleName: string, name: string)
    | PyObject(id: nat)

  // ----- str.upper / str.lower on ASCII letters -----

  function UpperChar(c: char): char {
    if 'a' <= c <= 'z' then (c as int - 32) as char else c
  }

  function LowerChar(c: char): char {
    if 'A' <= c <= 'Z' then (c as int + 32) as char else c
  }

  function Upper(s: string): string {
    seq(|s|, i requires 0 <= i < |s| => UpperChar(s[i]))
  }

  function Lower(s: string): string {
    seq(|s|, i requires 0 <= i < |s| => LowerChar(s[i]))
  }

  /** Upper-casing twice is upper-casing once. */
  lemma UpperIdempotent(s: string)
    ensures Upper(Upper(s)) == Upper(s)
  {
    assert forall i :: 0 <= i < |s| ==> Upper(Upper(s))[i] == Upper(s)[i];
  }

  lemma UpperAppend(a: string, b: string)
    ensures Upper(a + b) == Upper(a) + Upper(b)
  {
    assert forall i :: 0 <= i < |a + b| ==> Upper(a + b)[i] == (Upper(a) + Upper(b))[i];
  }

  /** Upper-casing changes letters only: any other character is kept in place. */
  lemma UpperKeeps(s: string, i: int)
    requires 0 <= i < |s| && !('a' <= s[i] <= 'z')
    ensures |Upper(s)| == |s| && Upper(s)[i] == s[i]
  {
  }

  // ----- str.replace -----

  /** `s.replace(pat, rep)`: every non-overlapping occurrence of `pat`, scanning
      from the left, is replaced by `rep`. */
  function Replace(s: string, pat: string, rep: string): string
    requires |pat| > 0
    decreases |s|
  {
    if |s| == 0 then []
    else if pat <= s then rep + Replace(s[|pat|..], pat, rep)
    else [s[0]] + Replace(s[1..], pat, rep)
  }

  /** Replacing one character distributes over concatenation. */
  lemma {:induction false} ReplaceCharAppend(a: string, b: string, c: char, rep: string)
    ensures Replace(a + b, [c], rep) == Replace(a, [c], rep) + Replace(b, [c], rep)
    decreases |a|
  {
    if |a| == 0 {
      assert a + b == b;
    } else {
      assert (a + b)[1..] == a[1..] + b;
      ReplaceCharAppend(a[1..], b, c, rep);
      if [c] <= a + b {
        assert (a + b)[|[c]|..] == a[1..] + b;
      }
    }
  }

  /** Removing a character (`s.replace(c, "")`) leaves no `c` and every other
      character with its number of occurrences unchanged. */
  lemma {:induction false} RemoveCharCounts(s: string, c: char)
    ensures c !in Replace(s, [c], "")
    ensures forall d :: d != c ==> multiset(Replace(s, [c], ""))[d] == multiset(s)[d]
    decreases |s|
  {
    if |s| > 0 {
      RemoveCharCounts(s[1..], c);
      assert s == [s[0]] + s[1..];
      if [c] <= s {
        assert s[|[c]|..] == s[1..];
      }
    }
  }

  /** A string with no `c` is unchanged by removing `c`. */
  lemma {:induction false} RemoveAbsentChar(s: string, c: char)
    requires c !in s
    ensures Replace(s, [c], "") == s
    decreases |s|
  {
    if |s| > 0 {
      assert s[0] != c;
      RemoveAbsentChar(s[1..], c);
      assert s == [s[0]] + s[1..];
    }
  }

  /** Removing `c` is idempotent. */
  lemma RemoveCharIdempotent(s: string, c: char)
    ensures Replace(Replace(s, [c], ""), [c], "") == Replace(s, [c], "")
  {
    RemoveCharCounts(s, c);
    RemoveAbsentChar(Replace(s, [c], ""), c);
  }

  /** A string in which `pat` never starts is left unchanged. */
  lemma {:induction false} ReplaceAbsent(s: string, pat: string, rep: string)
    requires |pat| > 0
    requires forall i :: 0 <= i < |s| ==> !(pat <= s[i..])
    ensures Replace(s, pat, rep) == s
    decreases |s|
  {
    if |s| > 0 {
      assert !(pat <= s[0..]);
      assert s[0..] == s;
      forall i | 0 <= i < |s[1..]| ensures !(pat <= s[1..][i..]) {
        assert s[1..][i..] == s[i + 1..];
      }
      ReplaceAbsent(s[1..], pat, rep);
      assert s == [s[0]] + s[1..];
    }
  }

  /** A leading `pat` is dropped first: `(pat + rest).replace(pat, "")` is
      `rest.replace(pat, "")`. */
  lemma ReplaceLeading(pat: string, rest: string)
    requires |pat| > 0
    ensures Replace(pat + rest, pat, "") == Replace(rest, pat, "")
  {
    assert (pat + rest)[|pat|..] == rest;
  }

  // ----- str.split(sep, 1) and str.rsplit(sep, 1) -----

    /** A string split around the separator at `i` joins back to itself. */
  lemma RejoinAt(s: string, i: int, sep: char)
    requires 0 <= i < |s| && s[i] == sep
    ensures s[..i] + [sep] + s[i + 1..] == s
  {
  }

/** The index of the first `c` in `s`, or `|s|` when there is none. */
  function IndexOf(s: string, c: char): (i: nat)
    ensures i <= |s|
    ensures i < |s| ==> s[i] == c
    ensures c !in s[..i]
    ensures i == |s| <==> c !in s
  {
    if |s| == 0 then 0
    else if s[0] == c then 0
    else
      var j := IndexOf(s[1..], c);
      assert s[..j + 1] == [s[0]] + s[1..][..j];
      j + 1
  }

  /** The index of the last `c` in `s`, or `-1` when there is none. */
  function LastIndexOf(s: string, c: char): (i: int)
    ensures -1 <= i < |s|
    ensures i >= 0 ==> s[i] == c
    ensures c !in s[i + 1..]
    ensures i == -1 <==> c !in s
  {
    if |s| == 0 then -1
    else if s[|s| - 1] == c then |s| - 1
    else
      var j := LastIndexOf(s[..|s| - 1], c);
      assert s[j + 1..] == s[..|s| - 1][j + 1..] + [s[|s| - 1]];
      j
  }
}
