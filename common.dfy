/**
 * Shared vocabulary for the whole model: an Option type for the source's
 * `undefined`/`null`, the ASCII string operations standing in for JavaScript's
 * `trim`, `toLowerCase` and `split`, and the collection operations the source
 * performs with `Set`, `filter` and the (stable) `Array.prototype.sort`.
 */
module Common {

  datatype Option<+T> = None | Some(value: T)

  /** A JavaScript "truthy" optional string: present and not "". */
  predicate Truthy(s: Option<string>) {
    s.Some? && s.value != ""
  }

  // ---------------------------------------------------------------------
  // Characters and strings
  // ---------------------------------------------------------------------

  /** The ASCII characters JavaScript's `trim` and `\s` treat as white space. */
  predicate IsSpace(c: char) {
    c == ' ' || c == '\t' || c == '\n' || c == '\r' || c == '\U{000B}' || c == '\U{000C}'
  }

  predicate IsBlank(s: string) {
    forall i :: 0 <= i < |s| ==> IsSpace(s[i])
  }

  function TrimStart(s: string): string {
    if s == [] || !IsSpace(s[0]) then s else TrimStart(s[1..])
  }

  function TrimEnd(s: string): string {
    if s == [] || !IsSpace(s[|s| - 1]) then s else TrimEnd(s[..|s| - 1])
  }

  /** What `TrimStart` removes is white space, and what it keeps is a suffix
      that does not start with white space. */
  lemma {:induction false} TrimStartSpec(s: string)
    ensures var r := TrimStart(s);
      && |r| <= |s| && r == s[|s| - |r|..]
      && (r == [] || !IsSpace(r[0]))
      && (forall i :: 0 <= i < |s| - |r| ==> IsSpace(s[i]))
    decreases |s|
  {
    if s != [] && IsSpace(s[0]) {
      TrimStartSpec(s[1..]);
    }
  }

  /** What `TrimEnd` removes is white space, and what it keeps is a prefix
      that does not end with white space. */
  lemma {:induction false} TrimEndSpec(s: string)
    ensures var r := TrimEnd(s);
      && |r| <= |s| && r == s[..|r|]
      && (r == [] || !IsSpace(r[|r| - 1]))
      && (forall i :: |r| <= i < |s| ==> IsSpace(s[i]))
    decreases |s|
  {
    if s != [] && IsSpace(s[|s| - 1]) {
      TrimEndSpec(s[..|s| - 1]);
    }
  }

  /** `s.trim()`: leading and trailing white space removed. */
  function Trim(s: string): string {
    TrimEnd(TrimStart(s))
  }

  /** The trimmed string is the slice of the input between its leading and
      trailing white space. */
  lemma {:induction false} TrimIsSlice(s: string)
    ensures |TrimStart(s)| <= |s| && |s| - |TrimStart(s)| + |Trim(s)| <= |s|
    ensures Trim(s) == s[|s| - |TrimStart(s)|..|s| - |TrimStart(s)| + |Trim(s)|]
  {
    var t := TrimStart(s);
    TrimStartSpec(s);
    TrimEndSpec(t);
    var a := |s| - |t|;
    assert t == s[a..];
    assert Trim(s) == t[..|Trim(s)|];
  }

  /** A trimmed string starts and ends with a non-space character. */
  lemma {:induction false} TrimEnds(s: string)
    ensures Trim(s) == [] || (!IsSpace(Trim(s)[0]) && !IsSpace(Trim(s)[|Trim(s)| - 1]))
  {
    var t := TrimStart(s);
    TrimStartSpec(s);
    TrimEndSpec(t);
    if Trim(s) != [] {
      assert Trim(s)[0] == t[0];
    }
  }

  /** A string with no white space at either end. */
  predicate IsTrimmed(s: string) {
    s == [] || (!IsSpace(s[0]) && !IsSpace(s[|s| - 1]))
  }

  /** Trimming changes exactly the strings that are not already trimmed. */
  lemma {:induction false} TrimmedIffFixed(s: string)
    ensures Trim(s) == s <==> IsTrimmed(s)
  {
    if IsTrimmed(s) {
      assert TrimStart(s) == s;
      assert TrimEnd(s) == s;
    } else {
      TrimEnds(s);
    }
  }

  /** Trimming leaves nothing exactly when the input is blank. */
  lemma {:induction false} TrimEmptyIffBlank(s: string)
    ensures Trim(s) == [] <==> IsBlank(s)
  {
    var t := TrimStart(s);
    var a := |s| - |t|;
    TrimStartSpec(s);
    TrimEndSpec(t);
    TrimIsSlice(s);
    TrimEnds(s);
    if Trim(s) == [] {
      assert t == [];
    } else {
      assert Trim(s)[0] == s[a];
    }
  }

  /** Trimming twice is the same as trimming once. */
  lemma {:induction false} TrimIdempotent(s: string)
    ensures Trim(Trim(s)) == Trim(s)
  {
    TrimEnds(s);
    var t := Trim(s);
    if t != [] {
      assert TrimStart(t) == t;
      assert TrimEnd(t) == t;
    }
  }

  function LowerChar(c: char): (d: char)
  {
    if 'A' <= c <= 'Z' then (c as int + 32) as char else c
  }

  /** `s.toLowerCase()` on the ASCII letters. */
  function ToLower(s: string): (r: string)
    ensures |r| == |s|
    ensures forall i :: 0 <= i < |s| ==> r[i] == LowerChar(s[i])
  {
    if s == [] then [] else [LowerChar(s[0])] + ToLower(s[1..])
  }

  /** Lower-casing never turns a character into white space or into '@' or
      '.', and never turns one of those into something else. */
  lemma {:induction false} LowerCharKeepsClass(c: char)
    ensures IsSpace(LowerChar(c)) == IsSpace(c)
    ensures (LowerChar(c) == '@') == (c == '@')
    ensures (LowerChar(c) == '.') == (c == '.')
    ensures LowerChar(LowerChar(c)) == LowerChar(c)
  {
  }

  /** `email.toLowerCase().trim()`. */
  function NormalizeEmail(e: string): string {
    Trim(ToLower(e))
  }

  predicate IsLowerCase(s: string) {
    forall i :: 0 <= i < |s| ==> !('A' <= s[i] <= 'Z')
  }

  /** A normalised address is trimmed and has no capital letter. */
  lemma {:induction false} NormalizedEmailShape(e: string)
    ensures IsTrimmed(NormalizeEmail(e)) && IsLowerCase(NormalizeEmail(e))
  {
    var l := ToLower(e);
    TrimEnds(l);
    TrimIsSlice(l);
    var a := |l| - |TrimStart(l)|;
    forall i | 0 <= i < |NormalizeEmail(e)| ensures !('A' <= NormalizeEmail(e)[i] <= 'Z') {
      assert NormalizeEmail(e)[i] == l[a + i];
    }
  }

  function DigitChar(d: nat): char
    requires d < 10
  {
    "0123456789"[d]
  }

  /** The decimal rendering JavaScript uses for a non-negative integer in a
      template literal. */
  function NatToString(n: nat): (r: string)
    ensures 1 <= |r|
    ensures forall i :: 0 <= i < |r| ==> '0' <= r[i] <= '9'
    ensures n < 10 <==> |r| == 1
  {
    if n < 10 then [DigitChar(n)] else NatToString(n / 10) + [DigitChar(n % 10)]
  }

  function StartsWith(s: string, prefix: string): bool {
    |prefix| <= |s| && s[..|prefix|] == prefix
  }

  function IndexOf(s: string, c: char): (r: Option<nat>)
    ensures r.Some? ==> r.value < |s| && s[r.value] == c && c !in s[..r.value]
    ensures r.None? <==> c !in s
  {
    if s == [] then None
    else if s[0] == c then Some(0)
    else match IndexOf(s[1..], c)
      case None => None
      case Some(i) => Some(i + 1)
  }

  /** `s.split(sep)` for a one-character separator: the pieces between the
      separators, including empty ones; always at least one piece. */
  function Split(s: string, sep: char): (r: seq<string>)
    ensures 1 <= |r|
    decreases |s|
  {
    match IndexOf(s, sep)
    case None => [s]
    case Some(i) => [s[..i]] + Split(s[i + 1..], sep)
  }

  /** `pieces.join(sep)`. */
  function Join(pieces: seq<string>, sep: string): string {
    if pieces == [] then ""
    else if |pieces| == 1 then pieces[0]
    else pieces[0] + sep + Join(pieces[1..], sep)
  }

  /** Splitting is undone by joining with the same separator. */
  lemma {:induction false} SplitJoin(s: string, sep: char)
    ensures Join(Split(s, sep), [sep]) == s
    decreases |s|
  {
    match IndexOf(s, sep)
    case None =>
    case Some(i) =>
      var rest := Split(s[i + 1..], sep);
      SplitJoin(s[i + 1..], sep);
      assert Split(s, sep) == [s[..i]] + rest;
      assert s == s[..i] + [sep] + s[i + 1..];
  }

  /** The first piece ends at the first separator. */
  lemma {:induction false} SplitAtFirst(s: string, sep: char, head: string, tail: string)
    requires s == head + [sep] + tail && sep !in head
    ensures Split(s, sep) == [head] + Split(tail, sep)
  {
    assert s[|head|] == sep;
    assert s[..|head|] == head;
    assert s[|head| + 1..] == tail;
  }

  /** A string without the separator is one piece. */
  lemma {:induction false} SplitWithout(s: string, sep: char)
    requires sep !in s
    ensures Split(s, sep) == [s]
  {
  }

  /** No piece of a split contains the separator. */
  lemma {:induction false} SplitPiecesLackSeparator(s: string, sep: char)
    ensures forall k :: 0 <= k < |Split(s, sep)| ==> sep !in Split(s, sep)[k]
    decreases |s|
  {
    match IndexOf(s, sep)
    case None =>
    case Some(i) =>
      var rest := Split(s[i + 1..], sep);
      SplitPiecesLackSeparator(s[i + 1..], sep);
      assert Split(s, sep) == [s[..i]] + rest;
      forall k | 0 <= k < |Split(s, sep)| ensures sep !in Split(s, sep)[k] {
        if k > 0 {
          assert Split(s, sep)[k] == rest[k - 1];
        }
      }
  }

  /** Joining two non-empty lists of pieces puts one separator between the
      two joins. */
  lemma {:induction false} JoinAppend(a: seq<string>, b: seq<string>, sep: string)
    requires a != [] && b != []
    ensures Join(a + b, sep) == Join(a, sep) + sep + Join(b, sep)
  {
    if |a| == 1 {
      assert (a + b)[1..] == b;
    } else {
      assert (a + b)[1..] == a[1..] + b;
      JoinAppend(a[1..], b, sep);
    }
  }

  // ---------------------------------------------------------------------
  // Sequences
  // ---------------------------------------------------------------------

  predicate Distinct<T(==)>(s: seq<T>) {
    forall i, j :: 0 <= i < j < |s| ==> s[i] != s[j]
  }

  function Count<T(==)>(s: seq<T>, x: T): nat {
    if s == [] then 0 else (if s[0] == x then 1 else 0) + Count(s[1..], x)
  }

  lemma {:induction false} CountAppend<T>(a: seq<T>, b: seq<T>, x: T)
    ensures Count(a + b, x) == Count(a, x) + Count(b, x)
  {
    if a == [] {
      assert a + b == b;
    } else {
      assert (a + b)[1..] == a[1..] + b;
      CountAppend(a[1..], b, x);
    }
  }

  lemma {:induction false} CountZero<T>(s: seq<T>, x: T)
    ensures Count(s, x) == 0 <==> x !in s
  {
    if s != [] {
      CountZero(s[1..], x);
      assert s == [s[0]] + s[1..];
    }
  }

  /** In a list without duplicates every element occurs once. */
  lemma {:induction false} CountDistinct<T>(s: seq<T>, x: T)
    requires Distinct(s)
    ensures Count(s, x) == if x in s then 1 else 0
  {
    if s != [] {
      assert Distinct(s[1..]) by {
        forall i, j | 0 <= i < j < |s[1..]| ensures s[1..][i] != s[1..][j] {
          assert s[1..][i] == s[i + 1] && s[1..][j] == s[j + 1];
        }
      }
      CountDistinct(s[1..], x);
      assert s == [s[0]] + s[1..];
      if s[0] == x {
        assert x !in s[1..] by {
          forall k | 0 <= k < |s[1..]| ensures s[1..][k] != x {
            assert s[1..][k] == s[k + 1];
          }
        }
      }
    }
  }

  /** `s.map(f)`. */
  function MapSeq<T, U>(s: seq<T>, f: T -> U): (r: seq<U>)
    ensures |r| == |s| && forall i :: 0 <= i < |s| ==> r[i] == f(s[i])
  {
    seq(|s|, i requires 0 <= i < |s| => f(s[i]))
  }

  lemma {:induction false} MapSeqAppend<T, U>(a: seq<T>, b: seq<T>, f: T -> U)
    ensures MapSeq(a + b, f) == MapSeq(a, f) + MapSeq(b, f)
  {
  }

  /** One more element of a prefix adds one mapped element. */
  lemma {:induction false} MapSeqPrefixStep<T, U>(s: seq<T>, j: nat, f: T -> U)
    requires j < |s|
    ensures MapSeq(s[..j + 1], f) == MapSeq(s[..j], f) + [f(s[j])]
  {
    assert s[..j + 1] == s[..j] + [s[j]];
    MapSeqAppend(s[..j], [s[j]], f);
  }

  /** `s.filter(p)`. */
  function Filter<T>(s: seq<T>, p: T -> bool): (r: seq<T>)
    ensures |r| <= |s|
    ensures forall i :: 0 <= i < |r| ==> p(r[i])
    ensures forall x :: x in r ==> x in s
  {
    if s == [] then [] else (if p(s[0]) then [s[0]] else []) + Filter(s[1..], p)
  }

  lemma {:induction false} FilterAppend<T>(a: seq<T>, b: seq<T>, p: T -> bool)
    ensures Filter(a + b, p) == Filter(a, p) + Filter(b, p)
  {
    if a == [] {
      assert a + b == b;
    } else {
      assert (a + b)[1..] == a[1..] + b;
      FilterAppend(a[1..], b, p);
    }
  }

  /** Nothing survives a filter no element satisfies. */
  lemma {:induction false} FilterNone<T>(s: seq<T>, p: T -> bool)
    requires forall i :: 0 <= i < |s| ==> !p(s[i])
    ensures Filter(s, p) == []
  {
    if s != [] {
      FilterNone(s[1..], p);
    }
  }

  /** An element satisfying the predicate survives the filter. */
  lemma {:induction false} FilterAll<T>(s: seq<T>, p: T -> bool)
    requires forall i :: 0 <= i < |s| ==> p(s[i])
    ensures Filter(s, p) == s
  {
    if s != [] {
      FilterAll(s[1..], p);
      assert [s[0]] + s[1..] == s;
    }
  }

  /** Filtering keeps a sequence free of repeats. */
  lemma {:induction false} FilterDistinct<T>(s: seq<T>, p: T -> bool)
    requires Distinct(s)
    ensures Distinct(Filter(s, p))
  {
    if s != [] {
      assert Distinct(s[1..]) by {
        forall i, j | 0 <= i < j < |s[1..]| ensures s[1..][i] != s[1..][j] {
          assert s[1..][i] == s[i + 1] && s[1..][j] == s[j + 1];
        }
      }
      FilterDistinct(s[1..], p);
      assert s[0] !in s[1..];
    }
  }

  /** A filter keeps every copy of an element that satisfies the predicate
      and no copy of one that does not. */
  lemma {:induction false} FilterMultiset<T>(s: seq<T>, p: T -> bool, x: T)
    ensures multiset(Filter(s, p))[x] == if p(x) then multiset(s)[x] else 0
  {
    if s != [] {
      FilterMultiset(s[1..], p, x);
      assert s == [s[0]] + s[1..];
    }
  }

  lemma {:induction false} FilterKeeps<T>(s: seq<T>, p: T -> bool, x: T)
    requires x in s && p(x)
    ensures x in Filter(s, p)
  {
    if s[0] != x {
      FilterKeeps(s[1..], p, x);
    }
  }

  /** The index of the first occurrence of `x` in `s`. */
  function FirstIndex<T(==)>(s: seq<T>, x: T): (k: nat)
    requires x in s
    ensures k < |s| && s[k] == x && x !in s[..k]
  {
    if s[0] == x then 0 else 1 + FirstIndex(s[1..], x)
  }

  /** The first occurrence is the only position holding `x` with no earlier `x`. */
  lemma {:induction false} FirstIndexUnique<T>(s: seq<T>, x: T, k: nat)
    requires k < |s| && s[k] == x && x !in s[..k]
    ensures FirstIndex(s, x) == k
  {
    if k > 0 {
      assert s[0] in s[..k];
      assert s[1..][..k - 1] == s[1..k];
      assert x !in s[1..][..k - 1];
      FirstIndexUnique(s[1..], x, k - 1);
    }
  }

  lemma {:induction false} FirstIndexPrefix<T>(s: seq<T>, n: nat, x: T)
    requires n <= |s| && x in s[..n]
    ensures FirstIndex(s, x) == FirstIndex(s[..n], x)
  {
    var k := FirstIndex(s[..n], x);
    assert s[..n][..k] == s[..k];
    FirstIndexUnique(s, x, k);
  }

  function AddUnique<T(==)>(acc: seq<T>, x: T): seq<T> {
    if x in acc then acc else acc + [x]
  }

  /** `Array.from(new Set(xs))`: the distinct elements of `xs`, each where it
      first occurs. */
  function Dedup<T(==)>(xs: seq<T>): (r: seq<T>)
    ensures forall i :: 0 <= i < |r| ==> r[i] in xs
    ensures forall i :: 0 <= i < |xs| ==> xs[i] in r
    ensures Distinct(r)
    ensures |r| <= |xs|
  {
    if xs == [] then [] else AddUnique(Dedup(xs[..|xs| - 1]), xs[|xs| - 1])
  }

  /** Deduplication only ever appends: the result for a longer list is the
      result for its prefix, possibly followed by the new last element when
      that element is new. */
  lemma {:induction false} DedupSnoc<T>(xs: seq<T>)
    requires xs != []
    ensures var d := Dedup(xs[..|xs| - 1]);
      Dedup(xs) == d || (Dedup(xs) == d + [xs[|xs| - 1]] && xs[|xs| - 1] !in xs[..|xs| - 1])
  {
  }

  /** Adding one element at the end is what a `Set.add` does. */
  lemma {:induction false} DedupAppendOne<T>(ys: seq<T>, y: T)
    ensures Dedup(ys + [y]) == AddUnique(Dedup(ys), y)
  {
    assert (ys + [y])[..|ys|] == ys;
  }

  /** Elements of `Dedup(xs)` come in the order of their first occurrence in
      `xs`. */
  lemma {:induction false} DedupFirstSeenOrder<T>(xs: seq<T>, i: nat, j: nat)
    requires i < j < |Dedup(xs)|
    ensures FirstIndex(xs, Dedup(xs)[i]) < FirstIndex(xs, Dedup(xs)[j])
  {
    var init := xs[..|xs| - 1];
    DedupSnoc(xs);
    var d := Dedup(init);
    if j < |d| {
      DedupFirstSeenOrder(init, i, j);
      DedupOrderKept(xs, d, i, j);
    } else {
      DedupOrderNew(xs, d, i);
    }
  }

  lemma {:induction false} DedupOrderKept<T>(xs: seq<T>, d: seq<T>, i: nat, j: nat)
    requires xs != [] && d == Dedup(xs[..|xs| - 1]) && i < j < |d|
    requires Dedup(xs) == d || Dedup(xs) == d + [xs[|xs| - 1]]
    requires FirstIndex(xs[..|xs| - 1], d[i]) < FirstIndex(xs[..|xs| - 1], d[j])
    ensures FirstIndex(xs, Dedup(xs)[i]) < FirstIndex(xs, Dedup(xs)[j])
  {
    assert Dedup(xs)[i] == d[i] && Dedup(xs)[j] == d[j];
    FirstIndexExtend(xs, |xs| - 1, d[i], d[j]);
  }

  lemma {:induction false} DedupOrderNew<T>(xs: seq<T>, d: seq<T>, i: nat)
    requires xs != [] && d == Dedup(xs[..|xs| - 1]) && i < |d|
    requires xs[|xs| - 1] !in xs[..|xs| - 1]
    ensures i < |d + [xs[|xs| - 1]]|
    ensures FirstIndex(xs, (d + [xs[|xs| - 1]])[i]) < FirstIndex(xs, xs[|xs| - 1])
  {
    assert (d + [xs[|xs| - 1]])[i] == d[i];
    FirstIndexLast(xs, d[i]);
  }

  /** Order of first occurrences in a prefix carries over to the whole. */
  lemma {:induction false} FirstIndexExtend<T>(xs: seq<T>, n: nat, x: T, y: T)
    requires n <= |xs| && x in xs[..n] && y in xs[..n]
    requires FirstIndex(xs[..n], x) < FirstIndex(xs[..n], y)
    ensures FirstIndex(xs, x) < FirstIndex(xs, y)
  {
    FirstIndexPrefix(xs, n, x);
    FirstIndexPrefix(xs, n, y);
  }

  /** A last element seen for the first time comes after everything before it. */
  lemma {:induction false} FirstIndexLast<T>(xs: seq<T>, x: T)
    requires xs != [] && x in xs[..|xs| - 1] && xs[|xs| - 1] !in xs[..|xs| - 1]
    ensures FirstIndex(xs, x) < FirstIndex(xs, xs[|xs| - 1])
  {
    FirstIndexPrefix(xs, |xs| - 1, x);
    FirstIndexUnique(xs, xs[|xs| - 1], |xs| - 1);
  }

  /** A list without duplicates is its own deduplication. */
  lemma {:induction false} DedupOfDistinct<T>(xs: seq<T>)
    requires Distinct(xs)
    ensures Dedup(xs) == xs
  {
    if xs != [] {
      var init := xs[..|xs| - 1];
      DedupOfDistinct(init);
      assert xs[|xs| - 1] !in init;
      assert init + [xs[|xs| - 1]] == xs;
    }
  }

  // ---------------------------------------------------------------------
  // Stable sort by an integer key (JavaScript's `sort((a, b) => k(a) - k(b))`,
  // which is stable since ECMAScript 2019)
  // ---------------------------------------------------------------------

  predicate SortedBy<T>(s: seq<T>, key: T -> int) {
    forall i, j :: 0 <= i < j < |s| ==> key(s[i]) <= key(s[j])
  }

  /** The elements of `s` whose key is `k`, in their order in `s`. */
  function WithKey<T>(s: seq<T>, key: T -> int, k: int): seq<T> {
    if s == [] then [] else (if key(s[0]) == k then [s[0]] else []) + WithKey(s[1..], key, k)
  }

  /** Where `x` goes in `s`: before the first element whose key is not smaller. */
  function InsertPos<T>(x: T, s: seq<T>, key: T -> int): (p: nat)
    ensures p <= |s|
    ensures forall i :: 0 <= i < p ==> key(s[i]) < key(x)
    ensures p < |s| ==> key(x) <= key(s[p])
  {
    if s == [] || key(x) <= key(s[0]) then 0 else 1 + InsertPos(x, s[1..], key)
  }

  function InsertBy<T>(x: T, s: seq<T>, key: T -> int): (r: seq<T>)
    ensures |r| == |s| + 1
  {
    var p := InsertPos(x, s, key);
    s[..p] + [x] + s[p..]
  }

  /** Inserting into a sorted list keeps it sorted. */
  lemma {:induction false} InsertBySorted<T>(x: T, s: seq<T>, key: T -> int)
    requires SortedBy(s, key)
    ensures SortedBy(InsertBy(x, s, key), key)
  {
    var p := InsertPos(x, s, key);
    var r := InsertBy(x, s, key);
    assert r == s[..p] + [x] + s[p..];
    forall i, j | 0 <= i < j < |r| ensures key(r[i]) <= key(r[j]) {
      assert r[i] == if i < p then s[i] else if i == p then x else s[i - 1];
      assert r[j] == if j < p then s[j] else if j == p then x else s[j - 1];
      if i == p && j > p {
        assert key(x) <= key(s[p]);
      }
    }
  }

  /** Inserting adds exactly the one element. */
  lemma {:induction false} InsertByElements<T>(x: T, s: seq<T>, key: T -> int)
    ensures multiset(InsertBy(x, s, key)) == multiset(s) + multiset{x}
  {
    var p := InsertPos(x, s, key);
    assert s == s[..p] + s[p..];
  }

  lemma {:induction false} WithKeyAppend<T>(a: seq<T>, b: seq<T>, key: T -> int, k: int)
    ensures WithKey(a + b, key, k) == WithKey(a, key, k) + WithKey(b, key, k)
  {
    if a == [] {
      assert a + b == b;
    } else {
      var head := if key(a[0]) == k then [a[0]] else [];
      assert (a + b)[0] == a[0] && (a + b)[1..] == a[1..] + b;
      assert WithKey(a + b, key, k) == head + WithKey(a[1..] + b, key, k);
      WithKeyAppend(a[1..], b, key, k);
      assert WithKey(a, key, k) == head + WithKey(a[1..], key, k);
    }
  }

  lemma {:induction false} WithKeyNone<T>(s: seq<T>, key: T -> int, k: int)
    requires forall i :: 0 <= i < |s| ==> key(s[i]) != k
    ensures WithKey(s, key, k) == []
  {
    if s != [] {
      WithKeyNone(s[1..], key, k);
    }
  }

  /** Among the elements with one key, the inserted element comes first. */
  lemma {:induction false} InsertByWithKey<T>(x: T, s: seq<T>, key: T -> int, k: int)
    ensures WithKey(InsertBy(x, s, key), key, k) == (if key(x) == k then [x] else []) + WithKey(s, key, k)
  {
    var p := InsertPos(x, s, key);
    var left, right := s[..p], s[p..];
    assert InsertBy(x, s, key) == (left + [x]) + right;
    assert s == left + right;
    WithKeyAppend(left, right, key, k);
    WithKeyAppend(left + [x], right, key, k);
    WithKeyAppend(left, [x], key, k);
    assert WithKey([x], key, k) == (if key(x) == k then [x] else []) + WithKey([], key, k);
    if key(x) == k {
      assert forall i :: 0 <= i < |left| ==> key(left[i]) < key(x);
      WithKeyNone(left, key, k);
    }
  }

  /** A stable insertion sort by key. */
  function SortBy<T>(s: seq<T>, key: T -> int): (r: seq<T>)
    ensures |r| == |s|
  {
    if s == [] then [] else InsertBy(s[0], SortBy(s[1..], key), key)
  }

  /** The sort's result is ordered by key and holds the same elements. */
  lemma {:induction false} SortBySortedPermutation<T>(s: seq<T>, key: T -> int)
    ensures SortedBy(SortBy(s, key), key)
    ensures multiset(SortBy(s, key)) == multiset(s)
  {
    if s != [] {
      SortBySortedPermutation(s[1..], key);
      InsertBySorted(s[0], SortBy(s[1..], key), key);
      InsertByElements(s[0], SortBy(s[1..], key), key);
      assert s == [s[0]] + s[1..];
    }
  }

  /** A list already ordered by key is left as it is. */
  lemma {:induction false} SortByOfSorted<T>(s: seq<T>, key: T -> int)
    requires SortedBy(s, key)
    ensures SortBy(s, key) == s
  {
    if s != [] {
      assert SortedBy(s[1..], key);
      SortByOfSorted(s[1..], key);
      assert InsertPos(s[0], s[1..], key) == 0;
      assert [s[0]] + s[1..] == s;
    }
  }

  /** Filtering then sorting: every copy of an element that passes, and
      nothing else, ordered by key, equal keys in their input order. */
  lemma {:induction false} FilterSortSpec<T>(s: seq<T>, p: T -> bool, key: T -> int)
    ensures var r := SortBy(Filter(s, p), key);
      && (forall x :: multiset(r)[x] == if p(x) then multiset(s)[x] else 0)
      && (forall i :: 0 <= i < |r| ==> p(r[i]))
      && SortedBy(r, key)
      && forall k :: WithKey(r, key, k) == WithKey(Filter(s, p), key, k)
  {
    var f := Filter(s, p);
    var r := SortBy(f, key);
    SortBySortedPermutation(f, key);
    forall x ensures multiset(r)[x] == if p(x) then multiset(s)[x] else 0 {
      FilterMultiset(s, p, x);
    }
    forall i | 0 <= i < |r| ensures p(r[i]) {
      assert r[i] in multiset(f);
    }
    forall k ensures WithKey(r, key, k) == WithKey(f, key, k) {
      SortByStable(f, key, k);
    }
  }

  /** Sorting is stable: the elements sharing a key keep their input order. */
  lemma {:induction false} SortByStable<T>(s: seq<T>, key: T -> int, k: int)
    ensures WithKey(SortBy(s, key), key, k) == WithKey(s, key, k)
  {
    if s != [] {
      SortByStable(s[1..], key, k);
      InsertByWithKey(s[0], SortBy(s[1..], key), key, k);
    }
  }
}
