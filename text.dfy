/** String helpers shared by the server routes and the browser components:
    JavaScript's `trim`, `slice(0, n)`, `split(c)`, `join(sep)` and the
    decimal rendering of a number inside a template literal, all over
    `seq<char>`. */
module Text {

  /** The characters `String.prototype.trim` removes: the white space of
      ECMAScript (tab, vertical tab, form feed, the byte order mark and every
      space separator of Unicode 15) and its four line terminators. */
  predicate IsSpace(c: char) {
    || c == '\t' || c == '\U{000B}' || c == '\U{000C}' || c == '\U{FEFF}'
    || c == ' ' || c == '\U{00A0}' || c == '\U{1680}' || '\U{2000}' <= c <= '\U{200A}'
    || c == '\U{202F}' || c == '\U{205F}' || c == '\U{3000}'
    || c == '\n' || c == '\r' || c == '\U{2028}' || c == '\U{2029}'
  }

  /** `!s.trim()`: the string has no character other than whitespace. */
  predicate IsBlank(s: string) {
    forall i :: 0 <= i < |s| ==> IsSpace(s[i])
  }

  /** Number of leading whitespace characters. */
  function LeadingSpaces(s: string): (n: nat)
    ensures n <= |s|
    ensures forall i :: 0 <= i < n ==> IsSpace(s[i])
    ensures n < |s| ==> !IsSpace(s[n])
  {
    if s == [] || !IsSpace(s[0]) then 0 else 1 + LeadingSpaces(s[1..])
  }

  /** Number of trailing whitespace characters. */
  function TrailingSpaces(s: string): (n: nat)
    ensures n <= |s|
    ensures forall i :: |s| - n <= i < |s| ==> IsSpace(s[i])
    ensures n < |s| ==> !IsSpace(s[|s| - 1 - n])
  {
    if s == [] || !IsSpace(s[|s| - 1]) then 0 else 1 + TrailingSpaces(s[..|s| - 1])
  }

  /** `s.trim()`: the input with its leading and trailing whitespace removed;
      what is left neither starts nor ends with whitespace. */
  function Trim(s: string): (r: string)
    ensures |r| <= |s|
    ensures r == "" || (!IsSpace(r[0]) && !IsSpace(r[|r| - 1]))
  {
    var rest := s[LeadingSpaces(s)..];
    rest[..|rest| - TrailingSpaces(rest)]
  }

  /** Trimming removes nothing but whitespace: the result sits in the input
      between two blank stretches. */
  lemma TrimInfix(s: string) returns (i: nat)
    ensures i + |Trim(s)| <= |s|
    ensures s[i..i + |Trim(s)|] == Trim(s)
    ensures IsBlank(s[..i]) && IsBlank(s[i + |Trim(s)|..])
  {
    i := LeadingSpaces(s);
    var rest := s[i..];
    var trail := TrailingSpaces(rest);
    var r := Trim(s);
    assert r == rest[..|rest| - trail];
    assert s[i + |r|..] == rest[|rest| - trail..];
  }

  /** A string is blank exactly when trimming it leaves nothing. */
  lemma TrimEmptyIffBlank(s: string)
    ensures Trim(s) == "" <==> IsBlank(s)
  {
    var r := Trim(s);
    var i := TrimInfix(s);
    if r == "" {
      forall k | 0 <= k < |s| ensures IsSpace(s[k]) {
        if k < i { assert s[k] == s[..i][k]; } else { assert s[k] == s[i..][k - i]; }
      }
    } else {
      assert s[i] == r[0];
      assert !IsSpace(s[i]);
    }
  }

  /** `s.slice(0, n)`: the first `n` characters, or all of `s` when it is shorter. */
  function Take(s: string, n: nat): (r: string)
    ensures |r| == if |s| < n then |s| else n
    ensures r <= s
  {
    if |s| <= n then s else s[..n]
  }

  /** `s.split(sep)`: the pieces of `s` between occurrences of `sep`, in order. */
  function Split(s: string, sep: char): seq<string>
    decreases |s|
  {
    if sep !in s then [s]
    else
      var i := IndexOf(s, sep);
      [s[..i]] + Split(s[i + 1..], sep)
  }

  /** Splitting yields at least one piece, no piece holds the separator, and
      joining the pieces back with the separator gives `s` again. */
  lemma {:induction false} SplitJoin(s: string, sep: char)
    ensures |Split(s, sep)| >= 1
    ensures forall k :: 0 <= k < |Split(s, sep)| ==> sep !in Split(s, sep)[k]
    ensures Join(Split(s, sep), [sep]) == s
    decreases |s|
  {
    if sep in s {
      var i := IndexOf(s, sep);
      var rest := Split(s[i + 1..], sep);
      SplitJoin(s[i + 1..], sep);
      JoinCons(s[..i], rest, [sep]);
      assert s == s[..i] + [sep] + s[i + 1..];
    }
  }

  /** A join ends with its last part, which a separator precedes when there
      are two parts or more. */
  lemma {:induction false} JoinLast(parts: seq<string>, sep: char)
    requires |parts| >= 1
    ensures var j, last := Join(parts, [sep]), parts[|parts| - 1];
      && |last| <= |j| && j[|j| - |last|..] == last
      && (|parts| > 1 ==> |last| < |j| && j[|j| - |last| - 1] == sep)
      && (|parts| == 1 ==> j == last)
  {
    if |parts| > 1 {
      var rest := parts[1..];
      JoinLast(rest, sep);
      var j, jr, last := Join(parts, [sep]), Join(rest, [sep]), parts[|parts| - 1];
      assert last == rest[|rest| - 1];
      assert j == (parts[0] + [sep]) + jr;
      assert j[|j| - |last|..] == jr[|jr| - |last|..];
      if |rest| > 1 {
        assert j[|j| - |last| - 1] == jr[|jr| - |last| - 1];
      } else {
        assert j[|j| - |last| - 1] == (parts[0] + [sep])[|parts[0]|];
      }
    }
  }

  /** The last piece of a split is the end of `s` after its last separator,
      or all of `s` when it holds none. */
  lemma SplitLast(s: string, sep: char)
    ensures |Split(s, sep)| >= 1
    ensures var last := Split(s, sep)[|Split(s, sep)| - 1];
      && sep !in last && |last| <= |s| && s[|s| - |last|..] == last
      && (sep in s ==> |last| < |s| && s[|s| - |last| - 1] == sep)
      && (sep !in s ==> last == s)
  {
    var parts := Split(s, sep);
    SplitJoin(s, sep);
    JoinLast(parts, sep);
    var last := parts[|parts| - 1];
    assert sep !in last;
    if |parts| > 1 {
      assert sep in s;
    } else {
      assert s == parts[0];
    }
  }

  /** Position of the first occurrence of `c` in `s`. */
  function IndexOf(s: string, c: char): (i: nat)
    requires c in s
    ensures i < |s| && s[i] == c && c !in s[..i]
  {
    if s[0] == c then 0 else 1 + IndexOf(s[1..], c)
  }

  /** `parts.join(sep)`; the empty array joins to the empty string. */
  function Join(parts: seq<string>, sep: string): string
  {
    if |parts| == 0 then ""
    else if |parts| == 1 then parts[0]
    else parts[0] + sep + Join(parts[1..], sep)
  }

  lemma JoinCons(head: string, tail: seq<string>, sep: string)
    requires |tail| >= 1
    ensures Join([head] + tail, sep) == head + sep + Join(tail, sep)
  {
    assert ([head] + tail)[1..] == tail;
  }

  /** With a non-empty separator, a join is empty exactly when there is nothing
      to join or the only part is empty: two or more parts always leave at
      least one separator behind. */
  lemma JoinEmptyIff(parts: seq<string>, sep: string)
    requires sep != ""
    ensures Join(parts, sep) == "" <==> (|parts| == 0 || (|parts| == 1 && parts[0] == ""))
  {
    if |parts| >= 2 {
      assert |Join(parts, sep)| >= |sep|;
    }
  }

  lemma AppendAssoc<T>(a: seq<T>, b: seq<T>, c: seq<T>)
    ensures (a + b) + c == a + (b + c)
  {
  }

  /** The concatenation of all parts, with no separator. */
  function Concat(parts: seq<string>): string
  {
    if parts == [] then "" else Concat(parts[..|parts| - 1]) + parts[|parts| - 1]
  }

  /** The elements of `xs` before the first one that `stop` holds of. */
  function TakeUntil<T>(stop: T -> bool, xs: seq<T>): seq<T>
  {
    if xs == [] || stop(xs[0]) then [] else [xs[0]] + TakeUntil(stop, xs[1..])
  }

  /** Past an element that does not stop, the taken elements extend by it. */
  lemma TakeUntilStep<T>(stop: T -> bool, xs: seq<T>, k: nat)
    requires k < |xs| && !stop(xs[k])
    requires TakeUntil(stop, xs) == xs[..k] + TakeUntil(stop, xs[k..])
    ensures TakeUntil(stop, xs) == xs[..k + 1] + TakeUntil(stop, xs[k + 1..])
  {
    var rest := xs[k..];
    assert rest[0] == xs[k];
    assert rest[1..] == xs[k + 1..];
    assert xs[..k + 1] == xs[..k] + [xs[k]];
    AppendAssoc(xs[..k], [xs[k]], TakeUntil(stop, xs[k + 1..]));
  }

  /** Once the end or a stopping element is reached, all elements before it
      are taken. */
  lemma TakeUntilEnd<T>(stop: T -> bool, xs: seq<T>, k: nat)
    requires k <= |xs|
    requires TakeUntil(stop, xs) == xs[..k] + TakeUntil(stop, xs[k..])
    requires k == |xs| || stop(xs[k])
    ensures TakeUntil(stop, xs) == xs[..k]
  {
    var rest := xs[k..];
    if k < |xs| {
      assert rest[0] == xs[k];
    } else {
      assert rest == [];
    }
    assert xs[..k] + [] == xs[..k];
  }

  /** The concatenation of `f` of every element, in order. */
  function ConcatMap<T, U>(f: T -> seq<U>, xs: seq<T>): seq<U>
  {
    if xs == [] then [] else ConcatMap(f, xs[..|xs| - 1]) + f(xs[|xs| - 1])
  }

  lemma {:induction false} ConcatMapAppend<T, U>(f: T -> seq<U>, a: seq<T>, b: seq<T>)
    ensures ConcatMap(f, a + b) == ConcatMap(f, a) + ConcatMap(f, b)
    decreases |b|
  {
    if b == [] {
      assert a + b == a;
    } else {
      assert (a + b)[..|a + b| - 1] == a + b[..|b| - 1];
      ConcatMapAppend(f, a, b[..|b| - 1]);
      AppendAssoc(ConcatMap(f, a), ConcatMap(f, b[..|b| - 1]), f(b[|b| - 1]));
    }
  }

  lemma ConcatMapSingle<T, U>(f: T -> seq<U>, x: T)
    ensures ConcatMap(f, [x]) == f(x)
  {
    assert [x][..0] == [];
  }

  /** When `f` gives nothing for every element, neither does the whole. */
  lemma {:induction false} ConcatMapNone<T, U>(f: T -> seq<U>, xs: seq<T>)
    requires forall k :: 0 <= k < |xs| ==> f(xs[k]) == []
    ensures ConcatMap(f, xs) == []
  {
    if xs != [] {
      ConcatMapNone(f, xs[..|xs| - 1]);
    }
  }

  /** An accumulator holding the text of the first `k` elements takes the
      next one by appending its text. */
  lemma ConcatMapSnoc<T, U>(f: T -> seq<U>, xs: seq<T>, k: nat, acc0: seq<U>, acc: seq<U>)
    requires k < |xs|
    requires acc == acc0 + ConcatMap(f, xs[..k])
    ensures acc + f(xs[k]) == acc0 + ConcatMap(f, xs[..k + 1])
  {
    assert xs[..k + 1][..k] == xs[..k];
    AppendAssoc(acc0, ConcatMap(f, xs[..k]), f(xs[k]));
  }

  /** The decimal digit for `d`. */
  function Digit(d: nat): char
    requires d < 10
  {
    "0123456789"[d]
  }

  predicate IsDigit(c: char) {
    '0' <= c <= '9'
  }

  /** `${n}` for a natural number: its decimal rendering, without sign or dot. */
  function Decimal(n: nat): (r: string)
    ensures r != []
    ensures forall i :: 0 <= i < |r| ==> IsDigit(r[i])
  {
    if n < 10 then [Digit(n)] else Decimal(n / 10) + [Digit(n % 10)]
  }

  /** Reads a string of decimal digits back as a number. */
  function ParseDecimal(s: string): nat
    requires forall i :: 0 <= i < |s| ==> IsDigit(s[i])
  {
    if s == [] then 0
    else
      var last := s[|s| - 1];
      assert IsDigit(last);
      10 * ParseDecimal(s[..|s| - 1]) + (last as int - '0' as int)
  }

  /** The decimal rendering loses nothing: reading it back gives the number. */
  lemma {:induction false} DecimalRoundTrip(n: nat)
    ensures ParseDecimal(Decimal(n)) == n
  {
    if n >= 10 {
      var r := Decimal(n);
      assert r[..|r| - 1] == Decimal(n / 10);
      DecimalRoundTrip(n / 10);
    }
  }
}
