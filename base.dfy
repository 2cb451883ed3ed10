/** Shared vocabulary: optional values, the outcome of an API list call and of a
    command, and the sequence and string operations the commands are built from. */
module Base {

  datatype Option<T> = None | Some(value: T) {
    function GetOr(default: T): T {
      match this
      case Some(v) => v
      case None => default
    }
  }

  /** What one call to a list endpoint of the provider's API produced: the records
      of the response, or an exception raised by the client library. */
  datatype Listing<T> = Listed(items: seq<T>) | ListFailed

  /** How a command ends: normally with what it reported, by an explicit exit with
      a status (`typer.Exit`, `sys.exit`), or by an exception that nothing catches. */
  datatype Outcome<T> = Done(value: T) | Exit(status: int) | Crash

  /** One child process: its argument vector, its working directory and the exit
      status it ended with. */
  datatype ChildRun = ChildRun(argv: seq<string>, cwd: string, status: int)

  // ---------------------------------------------------------------------------
  // Sequences. Each is defined on its last element, the way the loops that
  // compute them append.

  /** The elements of `s` that satisfy `p`, in their original order. */
  function Filter<T>(p: T -> bool, s: seq<T>): (r: seq<T>)
    ensures |r| <= |s|
    ensures forall i :: 0 <= i < |r| ==> r[i] in s && p(r[i])
    ensures forall i :: 0 <= i < |s| && p(s[i]) ==> s[i] in r
  {
    if s == [] then []
    else Filter(p, s[..|s| - 1]) + (if p(s[|s| - 1]) then [s[|s| - 1]] else [])
  }

  /** Filtering distributes over concatenation; with the one-element case this
      pins the order of the filtered elements down completely. */
  lemma {:induction false} FilterAppend<T>(p: T -> bool, a: seq<T>, b: seq<T>)
    ensures Filter(p, a + b) == Filter(p, a) + Filter(p, b)
    decreases |b|
  {
    if b == [] {
      assert a + b == a;
    } else {
      var b' := b[..|b| - 1];
      assert (a + b)[..|a + b| - 1] == a + b';
      FilterAppend(p, a, b');
    }
  }

  /** `f` applied to every element of `s`, in order. */
  function Map<T, U>(f: T -> U, s: seq<T>): (r: seq<U>)
    ensures |r| == |s|
    ensures forall i :: 0 <= i < |s| ==> r[i] == f(s[i])
  {
    if s == [] then [] else Map(f, s[..|s| - 1]) + [f(s[|s| - 1])]
  }

  /** One more element of `s` maps to one more element of the result. */
  lemma MapStep<T, U>(f: T -> U, s: seq<T>, i: nat)
    requires i < |s|
    ensures Map(f, s[..i + 1]) == Map(f, s[..i]) + [f(s[i])]
  {
    assert s[..i + 1][..i] == s[..i];
  }

  function Sum(s: seq<int>): int {
    if s == [] then 0 else Sum(s[..|s| - 1]) + s[|s| - 1]
  }

  lemma {:induction false} SumAppend(a: seq<int>, b: seq<int>)
    ensures Sum(a + b) == Sum(a) + Sum(b)
    decreases |b|
  {
    if b == [] {
      assert a + b == a;
    } else {
      var b' := b[..|b| - 1];
      assert (a + b)[..|a + b| - 1] == a + b';
      SumAppend(a, b');
    }
  }

  /** A sum of non-negative terms is non-negative, and is zero only when every
      term is. */
  lemma {:induction false} SumNonNegative(s: seq<int>)
    requires forall i :: 0 <= i < |s| ==> s[i] >= 0
    ensures Sum(s) >= 0
    ensures Sum(s) == 0 <==> forall i :: 0 <= i < |s| ==> s[i] == 0
  {
    if s != [] {
      SumNonNegative(s[..|s| - 1]);
      assert forall i :: 0 <= i < |s| - 1 ==> s[..|s| - 1][i] == s[i];
    }
  }

  /** The number of occurrences of `x` in `s`. */
  function Count<T(==)>(x: T, s: seq<T>): nat {
    if s == [] then 0 else Count(x, s[..|s| - 1]) + (if s[|s| - 1] == x then 1 else 0)
  }

  // ---------------------------------------------------------------------------
  // Strings.

  /** The characters Python's `str.strip()` removes (`str.isspace`). */
  predicate IsSpace(c: char) {
    || c == ' ' || '\t' <= c <= '\r' || '\U{1c}' <= c <= '\U{1f}'
    || c == '\U{85}' || c == '\U{a0}' || c == '\U{1680}' || '\U{2000}' <= c <= '\U{200a}'
    || c == '\U{2028}' || c == '\U{2029}' || c == '\U{202f}' || c == '\U{205f}' || c == '\U{3000}'
  }

  function StripLeft(s: string): (r: string)
    ensures |r| <= |s| && r == s[|s| - |r|..]
    ensures r == [] || !IsSpace(r[0])
  {
    if s != [] && IsSpace(s[0]) then StripLeft(s[1..]) else s
  }

  function StripRight(s: string): (r: string)
    ensures |r| <= |s| && r == s[..|r|]
    ensures r == [] || !IsSpace(r[|r| - 1])
  {
    if s != [] && IsSpace(s[|s| - 1]) then StripRight(s[..|s| - 1]) else s
  }

  /** Everything `StripLeft` cuts off is whitespace. */
  lemma {:induction false} StripLeftCutsSpace(s: string, i: nat)
    requires i < |s| - |StripLeft(s)|
    ensures IsSpace(s[i])
  {
    if i > 0 {
      StripLeftCutsSpace(s[1..], i - 1);
    }
  }

  /** Everything `StripRight` cuts off is whitespace. */
  lemma {:induction false} StripRightCutsSpace(s: string, i: nat)
    requires |StripRight(s)| <= i < |s|
    ensures IsSpace(s[i])
  {
    if i < |s| - 1 {
      StripRightCutsSpace(s[..|s| - 1], i);
    }
  }

  /** `str.strip()`: the slice of `s` left after removing the whitespace at both ends. */
  function Strip(s: string): (r: string) {
    StripRight(StripLeft(s))
  }

  /** The first `i` characters of `s` are whitespace. */
  ghost predicate SpacesBefore(s: string, i: int) {
    0 <= i <= |s| && forall k :: 0 <= k < i ==> IsSpace(s[k])
  }

  /** The characters of `s` from `j` on are whitespace. */
  ghost predicate SpacesFrom(s: string, j: int) {
    0 <= j <= |s| && forall k :: j <= k < |s| ==> IsSpace(s[k])
  }

  /** `s[i..j]` is what is left of `s` once the whitespace before `i` and from
      `j` on is cut off. */
  ghost predicate TrimmedAt(s: string, i: int, j: int) {
    i <= j && SpacesBefore(s, i) && SpacesFrom(s, j)
  }

  lemma StripLeftSpaces(s: string)
    ensures SpacesBefore(s, |s| - |StripLeft(s)|)
  {
    forall k | 0 <= k < |s| - |StripLeft(s)| ensures IsSpace(s[k]) {
      StripLeftCutsSpace(s, k);
    }
  }

  lemma StripRightSpaces(s: string)
    ensures SpacesFrom(s, |StripRight(s)|)
  {
    forall k | |StripRight(s)| <= k < |s| ensures IsSpace(s[k]) {
      StripRightCutsSpace(s, k);
    }
  }

  lemma SpacesFromShift(s: string, i: nat, m: int)
    requires i <= |s| && SpacesFrom(s[i..], m)
    ensures SpacesFrom(s, i + m)
  {
    forall k | i + m <= k < |s| ensures IsSpace(s[k]) {
      assert s[k] == s[i..][k - i];
    }
  }

  /** Strip returns a slice of its input, and everything it cut off is whitespace. */
  lemma StripIsTrimmedSlice(s: string)
    ensures exists i, j :: TrimmedAt(s, i, j) && Strip(s) == s[i..j]
  {
    var l := StripLeft(s);
    var r := StripRight(l);
    var i := |s| - |l|;
    assert l == s[i..];
    StripLeftSpaces(s);
    StripRightSpaces(l);
    SpacesFromShift(s, i, |r|);
    assert r == s[i..i + |r|];
    assert TrimmedAt(s, i, i + |r|);
  }

  /** The result of Strip neither begins nor ends with whitespace. */
  lemma StripTrimmed(s: string)
    ensures Strip(s) == [] || (!IsSpace(Strip(s)[0]) && !IsSpace(Strip(s)[|Strip(s)| - 1]))
  {
    var l := StripLeft(s);
    var r := StripRight(l);
    if r != [] {
      assert r == l[..|r|] && r[0] == l[0];
    }
  }

  lemma {:induction false} StripLeftOfStripped(s: string)
    requires s == [] || !IsSpace(s[0])
    ensures StripLeft(s) == s
  {
  }

  /** A string that neither begins nor ends with whitespace is its own strip. */
  lemma StripOfTrimmed(r: string)
    requires r == [] || (!IsSpace(r[0]) && !IsSpace(r[|r| - 1]))
    ensures Strip(r) == r
  {
    StripLeftOfStripped(r);
  }

  /** Stripping twice is stripping once. */
  lemma StripIdempotent(s: string)
    ensures Strip(Strip(s)) == Strip(s)
  {
    StripTrimmed(s);
    StripOfTrimmed(Strip(s));
  }

  predicate StartsWith(s: string, prefix: string) {
    |prefix| <= |s| && s[..|prefix|] == prefix
  }

  /** `s[:n]`: at most the first `n` characters. */
  function Take(s: string, n: nat): (r: string)
    ensures |r| <= n && StartsWith(s, r)
    ensures |s| <= n ==> r == s
  {
    if |s| <= n then s else s[..n]
  }

  /** `sep.join(xs)`. */
  function Join(sep: string, xs: seq<string>): string {
    if xs == [] then ""
    else if |xs| == 1 then xs[0]
    else Join(sep, xs[..|xs| - 1]) + sep + xs[|xs| - 1]
  }

  /** With a non-empty separator, a join is empty exactly when there is nothing
      to join or the only piece is empty. */
  lemma JoinEmpty(sep: string, xs: seq<string>)
    requires sep != ""
    ensures Join(sep, xs) == "" <==> xs == [] || xs == [""]
  {
    JoinLong(sep, xs);
  }

  lemma JoinLong(sep: string, xs: seq<string>)
    ensures |xs| > 1 ==> |Join(sep, xs)| >= |sep|
  {
  }

  /** `", ".join(xs) or "-"`: the listing cell for a list that may be empty. */
  function JoinOrDash(xs: seq<string>): (r: string)
    ensures r == "-" || r == Join(", ", xs)
    ensures r == "-" <==> xs == [] || xs == [""] || xs == ["-"]
  {
    JoinEmpty(", ", xs);
    JoinLong(", ", xs);
    var j := Join(", ", xs);
    if j == "" then "-" else j
  }

  function DigitChar(d: nat): char
    requires d < 10
  {
    ('0' as int + d) as char
  }

  /** `str(n)` for a non-negative integer: its decimal digits, most significant first. */
  function NatToString(n: nat): (s: string)
    ensures |s| >= 1
    ensures forall i :: 0 <= i < |s| ==> '0' <= s[i] <= '9'
    ensures |s| > 1 ==> s[0] != '0'
  {
    if n < 10 then [DigitChar(n)] else NatToString(n / 10) + [DigitChar(n % 10)]
  }

  /** The value of a string of decimal digits. */
  function DecimalValue(s: string): nat
    requires forall i :: 0 <= i < |s| ==> '0' <= s[i] <= '9'
  {
    if s == [] then 0 else 10 * DecimalValue(s[..|s| - 1]) + (s[|s| - 1] - '0') as nat
  }

  /** Reading back the digits of `str(n)` gives `n`: distinct numbers print differently. */
  lemma {:induction false} NatToStringRoundTrip(n: nat)
    ensures DecimalValue(NatToString(n)) == n
  {
    if n >= 10 {
      var s := NatToString(n);
      assert s == NatToString(n / 10) + [DigitChar(n % 10)];
      assert s[..|s| - 1] == NatToString(n / 10);
      NatToStringRoundTrip(n / 10);
      assert (s[|s| - 1] - '0') as nat == n % 10;
      assert n == 10 * (n / 10) + n % 10;
    }
  }

  lemma NatToStringInjective(m: nat, n: nat)
    ensures NatToString(m) == NatToString(n) ==> m == n
  {
    NatToStringRoundTrip(m);
    NatToStringRoundTrip(n);
  }
}
