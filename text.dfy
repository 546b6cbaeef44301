/** String helpers shared by the model: prefix tests, Rust's byte-wise string
    order, the stable sort the source applies to key/value pairs, decimal
    rendering and parsing, and `split` / `trim` as Rust's `str` defines them. */
module Text {
  import opened Base

  type Pair = (string, string)

  // ---------------------------------------------------------------------------
  // Prefixes
  // ---------------------------------------------------------------------------

  predicate StartsWith(s: string, prefix: string) {
    |prefix| <= |s| && s[..|prefix|] == prefix
  }

  /** `if s.starts_with(p) { s.strip_prefix(p).unwrap_or(s) } else { s }`:
      removes one leading copy of `prefix`, and only one. */
  function StripPrefix(s: string, prefix: string): (r: string)
    ensures StartsWith(s, prefix) ==> prefix + r == s
    ensures !StartsWith(s, prefix) ==> r == s
  {
    if StartsWith(s, prefix) then s[|prefix|..] else s
  }

  lemma StartsWithConcat(prefix: string, rest: string)
    ensures StartsWith(prefix + rest, prefix)
  {
    assert (prefix + rest)[..|prefix|] == prefix;
  }

  lemma StartsWithLonger(s: string, prefix: string, shorter: string)
    requires StartsWith(s, prefix) && StartsWith(prefix, shorter)
    ensures StartsWith(s, shorter)
  {
    assert s[..|shorter|] == s[..|prefix|][..|shorter|];
  }

  // ---------------------------------------------------------------------------
  // Lexicographic order (Rust's `Ord for str` compares UTF-8 bytes, which
  // orders strings exactly as comparing their code points one by one does)
  // ---------------------------------------------------------------------------

  predicate LessEq(a: string, b: string) {
    |a| == 0 || (|b| > 0 && (a[0] < b[0] || (a[0] == b[0] && LessEq(a[1..], b[1..]))))
  }

  predicate Less(a: string, b: string) {
    LessEq(a, b) && a != b
  }

  lemma {:induction false} LessEqTotal(a: string, b: string)
    ensures LessEq(a, b) || LessEq(b, a)
  {
    if |a| > 0 && |b| > 0 && a[0] == b[0] {
      LessEqTotal(a[1..], b[1..]);
    }
  }

  lemma {:induction false} LessEqAntisymmetric(a: string, b: string)
    requires LessEq(a, b) && LessEq(b, a)
    ensures a == b
  {
    if |a| > 0 {
      LessEqAntisymmetric(a[1..], b[1..]);
      assert a == [a[0]] + a[1..];
      assert b == [b[0]] + b[1..];
    }
  }

  lemma {:induction false} LessEqTransitive(a: string, b: string, c: string)
    requires LessEq(a, b) && LessEq(b, c)
    ensures LessEq(a, c)
  {
    if |a| > 0 && a[0] == b[0] && b[0] == c[0] {
      LessEqTransitive(a[1..], b[1..], c[1..]);
    }
  }

  lemma LessTransitive(a: string, b: string, c: string)
    requires Less(a, b) && LessEq(b, c)
    ensures Less(a, c)
  {
    LessEqTransitive(a, b, c);
    if a == c {
      LessEqAntisymmetric(a, b);
    }
  }

  // ---------------------------------------------------------------------------
  // Sorting key/value pairs by key
  // ---------------------------------------------------------------------------

  function Keys(ps: seq<Pair>): set<string> {
    set p | p in ps :: p.0
  }

  /** Keys strictly increase along the sequence (so no key repeats). */
  predicate StrictlySortedByKey(ps: seq<Pair>) {
    forall i, j :: 0 <= i < j < |ps| ==> Less(ps[i].0, ps[j].0)
  }

  predicate DistinctKeys(ps: seq<Pair>) {
    forall i, j :: 0 <= i < j < |ps| ==> ps[i].0 != ps[j].0
  }

  /** Inserts `p` before the first element whose key is greater than its own,
      so that elements with equal keys keep their relative order. */
  function InsertByKey(p: Pair, ps: seq<Pair>): seq<Pair> {
    if ps == [] then [p]
    else if Less(p.0, ps[0].0) then [p] + ps
    else [ps[0]] + InsertByKey(p, ps[1..])
  }

  /** The stable sort `v.sort_by(|a, b| a.0.cmp(b.0))`, as an insertion sort. */
  function SortByKey(ps: seq<Pair>): seq<Pair> {
    if ps == [] then [] else InsertByKey(ps[|ps| - 1], SortByKey(ps[..|ps| - 1]))
  }

  lemma {:induction false} InsertByKeyMultiset(p: Pair, ps: seq<Pair>)
    ensures multiset(InsertByKey(p, ps)) == multiset(ps) + multiset{p}
  {
    if ps != [] && !Less(p.0, ps[0].0) {
      InsertByKeyMultiset(p, ps[1..]);
      assert ps == [ps[0]] + ps[1..];
    }
  }

  /** An element whose key is below every key of a strictly sorted listing
      can be put in front of it. */
  lemma ConsStrict(x: Pair, s: seq<Pair>)
    requires StrictlySortedByKey(s)
    requires forall q :: q in s ==> Less(x.0, q.0)
    ensures StrictlySortedByKey([x] + s)
  {
    var r := [x] + s;
    forall i, j | 0 <= i < j < |r| ensures Less(r[i].0, r[j].0) {
      assert r[j] == s[j - 1];
      if i == 0 {
        assert s[j - 1] in s;
      } else {
        assert r[i] == s[i - 1];
      }
    }
  }

  /** Every key of a strictly sorted listing is above the head's. */
  lemma AboveHead(x: string, ps: seq<Pair>)
    requires StrictlySortedByKey(ps) && ps != [] && Less(x, ps[0].0)
    ensures forall q :: q in ps ==> Less(x, q.0)
  {
    forall q | q in ps ensures Less(x, q.0) {
      var k :| 0 <= k < |ps| && ps[k] == q;
      if k > 0 {
        LessTransitive(x, ps[0].0, ps[k].0);
      }
    }
  }

  lemma {:induction false} InsertByKeyStrict(p: Pair, ps: seq<Pair>)
    requires StrictlySortedByKey(ps) && p.0 !in Keys(ps)
    ensures StrictlySortedByKey(InsertByKey(p, ps))
  {
    if ps == [] {
    } else if Less(p.0, ps[0].0) {
      AboveHead(p.0, ps);
      ConsStrict(p, ps);
    } else {
      var tail := ps[1..];
      assert Keys(tail) <= Keys(ps) by {
        forall k | k in Keys(tail) ensures k in Keys(ps) {
          var q :| q in tail && q.0 == k;
          assert q in ps;
        }
      }
      InsertByKeyStrict(p, tail);
      InsertByKeyMultiset(p, tail);
      var inner := InsertByKey(p, tail);
      assert ps[0] in ps;
      LessEqTotal(p.0, ps[0].0);
      forall q | q in inner ensures Less(ps[0].0, q.0) {
        assert q in multiset(inner);
        if q != p {
          assert q in multiset(tail);
          var j :| 0 <= j < |tail| && tail[j] == q;
          assert ps[j + 1] == q;
        }
      }
      ConsStrict(ps[0], inner);
    }
  }

  lemma {:induction false} SortByKeyMultiset(ps: seq<Pair>)
    ensures multiset(SortByKey(ps)) == multiset(ps)
  {
    if ps != [] {
      var init := ps[..|ps| - 1];
      SortByKeyMultiset(init);
      InsertByKeyMultiset(ps[|ps| - 1], SortByKey(init));
      assert ps == init + [ps[|ps| - 1]];
    }
  }

  lemma {:induction false} SortByKeyStrict(ps: seq<Pair>)
    requires DistinctKeys(ps)
    ensures StrictlySortedByKey(SortByKey(ps))
  {
    if ps != [] {
      var init := ps[..|ps| - 1];
      var last := ps[|ps| - 1];
      SortByKeyStrict(init);
      SortByKeyMultiset(init);
      var sorted := SortByKey(init);
      forall q | q in sorted ensures q.0 != last.0 {
        assert q in multiset(init);
        var j :| 0 <= j < |init| && init[j] == q;
        assert ps[j] == q;
      }
      InsertByKeyStrict(last, sorted);
    }
  }

  lemma {:induction false} LessEqReflexive(a: string)
    ensures LessEq(a, a)
  {
    if |a| > 0 {
      LessEqReflexive(a[1..]);
    }
  }

  /** The first element of a strictly sorted listing has the least key. */
  lemma HeadLeast(s: seq<Pair>)
    requires StrictlySortedByKey(s) && s != []
    ensures forall p :: p in s ==> LessEq(s[0].0, p.0)
  {
    LessEqReflexive(s[0].0);
  }

  /** In a strictly sorted listing no two elements share a key. */
  lemma KeyDetermines(s: seq<Pair>, p: Pair, q: Pair)
    requires StrictlySortedByKey(s) && p in s && q in s
    ensures p.0 == q.0 ==> p == q
  {
    var i :| 0 <= i < |s| && s[i] == p;
    var j :| 0 <= j < |s| && s[j] == q;
    assert i < j ==> Less(s[i].0, s[j].0);
    assert j < i ==> Less(s[j].0, s[i].0);
  }

  /** A strictly key-sorted listing is determined by its elements: two with the
      same elements are the same sequence. */
  lemma {:induction false} StrictListingUnique(a: seq<Pair>, b: seq<Pair>)
    requires StrictlySortedByKey(a) && StrictlySortedByKey(b)
    requires forall p :: p in a <==> p in b
    ensures a == b
  {
    assert a != [] ==> a[0] in b;
    assert b != [] ==> b[0] in a;
    if a != [] && b != [] {
      HeadLeast(a);
      HeadLeast(b);
      LessEqAntisymmetric(a[0].0, b[0].0);
      KeyDetermines(b, a[0], b[0]);
      assert a[0] == b[0];
      forall p ensures p in a[1..] <==> p in b[1..] {
        if p in a[1..] {
          var k :| 1 <= k < |a| && a[k] == p;
          assert Less(a[0].0, a[k].0);
          assert p in b;
          var m :| 0 <= m < |b| && b[m] == p;
          assert m != 0;
          assert b[1..][m - 1] == p;
        }
        if p in b[1..] {
          var k :| 1 <= k < |b| && b[k] == p;
          assert Less(b[0].0, b[k].0);
          assert p in a;
          var m :| 0 <= m < |a| && a[m] == p;
          assert m != 0;
          assert a[1..][m - 1] == p;
        }
      }
      StrictListingUnique(a[1..], b[1..]);
      assert a == [a[0]] + a[1..];
      assert b == [b[0]] + b[1..];
    }
  }

  /** Sorting two key-distinct sequences with the same elements gives the same
      sequence, whatever order the elements came in. */
  lemma SortByKeyElements(ps: seq<Pair>)
    ensures forall p :: p in SortByKey(ps) <==> p in ps
  {
    SortByKeyMultiset(ps);
    var sorted := SortByKey(ps);
    forall p ensures p in sorted <==> p in ps {
      assert p in sorted <==> p in multiset(sorted);
      assert p in ps <==> p in multiset(ps);
    }
  }

  lemma SortByKeyDetermined(a: seq<Pair>, b: seq<Pair>)
    requires DistinctKeys(a) && DistinctKeys(b)
    requires forall p :: p in a <==> p in b
    ensures SortByKey(a) == SortByKey(b)
  {
    SortByKeyStrict(a);
    SortByKeyStrict(b);
    SortByKeyElements(a);
    SortByKeyElements(b);
    StrictListingUnique(SortByKey(a), SortByKey(b));
  }

  // ---------------------------------------------------------------------------
  // Maps with an iteration order (Rust's HashMap)
  // ---------------------------------------------------------------------------

  predicate IsOrderOf(order: seq<string>, keys: set<string>) {
    && (forall i, j :: 0 <= i < j < |order| ==> order[i] != order[j])
    && (forall k :: k in order ==> k in keys)
    && (forall k :: k in keys ==> k in order)
  }

  datatype Table = Table(contents: map<string, string>, order: seq<string>)

  /** A HashMap<String, String>: its contents plus the order in which iterating
      over it happens to visit the keys, which the program does not control. */
  type StrMap = t: Table | IsOrderOf(t.order, t.contents.Keys) witness Table(map[], [])

  function Get(m: StrMap, key: string): Option<string> {
    if key in m.contents then Some(m.contents[key]) else None
  }

  /** `m.iter()` collected into a vector. */
  function Entries(m: StrMap): (ps: seq<Pair>)
    ensures DistinctKeys(ps)
    ensures forall p: Pair :: p in ps <==> p.0 in m.contents && p.1 == m.contents[p.0]
  {
    var ps := seq(|m.order|, i requires 0 <= i < |m.order| => (m.order[i], m.contents[m.order[i]]));
    assert forall p: Pair :: p.0 in m.contents && p.1 == m.contents[p.0] ==> p in ps by {
      forall p: Pair | p.0 in m.contents && p.1 == m.contents[p.0] ensures p in ps {
        var i :| 0 <= i < |m.order| && m.order[i] == p.0;
        assert ps[i] == p;
      }
    }
    ps
  }

  /** `.filter(|(k, _)| *k != key)`. */
  function WithoutKey(ps: seq<Pair>, key: string): (r: seq<Pair>)
    ensures forall p :: p in r <==> p in ps && p.0 != key
    ensures DistinctKeys(ps) ==> DistinctKeys(r)
  {
    if ps == [] then []
    else
      var rest := WithoutKey(ps[1..], key);
      assert DistinctKeys(ps) ==> forall q :: q in rest ==> q.0 != ps[0].0 by {
        if DistinctKeys(ps) {
          forall q | q in rest ensures q.0 != ps[0].0 {
            var j :| 0 <= j < |ps[1..]| && ps[1..][j] == q;
            assert ps[j + 1] == q;
          }
        }
      }
      if ps[0].0 == key then rest else [ps[0]] + rest
  }

  // ---------------------------------------------------------------------------
  // Concatenating pairs
  // ---------------------------------------------------------------------------

  /** key1 + value1 + key2 + value2 + ..., with no separator. */
  function ConcatPairs(ps: seq<Pair>): string {
    if ps == [] then "" else ps[0].0 + ps[0].1 + ConcatPairs(ps[1..])
  }

  lemma {:induction false} ConcatPairsAppend(ps: seq<Pair>, p: Pair)
    ensures ConcatPairs(ps + [p]) == ConcatPairs(ps) + p.0 + p.1
  {
    if ps != [] {
      assert (ps + [p])[1..] == ps[1..] + [p];
      ConcatPairsAppend(ps[1..], p);
    }
  }

  // ---------------------------------------------------------------------------
  // Decimal numbers
  // ---------------------------------------------------------------------------

  predicate IsDigit(c: char) {
    '0' <= c <= '9'
  }

  predicate AllDigits(s: string) {
    forall i :: 0 <= i < |s| ==> IsDigit(s[i])
  }

  function DigitChar(d: int): char
    requires 0 <= d < 10
  {
    ('0' as int + d) as char
  }

  /** `n.to_string()` for a non-negative integer. */
  function NatToString(n: nat): string {
    if n < 10 then [DigitChar(n)] else NatToString(n / 10) + [DigitChar(n % 10)]
  }

  /** `n.to_string()` for a signed integer. */
  function IntToString(n: int): string {
    if n < 0 then "-" + NatToString(-n) else NatToString(n)
  }

  /** The value of a string of decimal digits. */
  function DigitsValue(s: string): nat
    requires AllDigits(s)
  {
    if s == [] then 0 else DigitsValue(s[..|s| - 1]) * 10 + (s[|s| - 1] as int - '0' as int)
  }

  /** `s.parse::<u32>()`: an optional `+`, then one or more ASCII digits whose
      value fits in 32 bits; anything else (spaces included) is an error. */
  function ParseU32(s: string): Option<u32> {
    var digits := if |s| > 0 && s[0] == '+' then s[1..] else s;
    if |digits| > 0 && AllDigits(digits) && DigitsValue(digits) < U32_LIMIT
    then Some(DigitsValue(digits) as u32)
    else None
  }

  lemma {:induction false} NatToStringDigits(n: nat)
    ensures |NatToString(n)| > 0 && AllDigits(NatToString(n))
    ensures DigitsValue(NatToString(n)) == n
  {
    if n >= 10 {
      NatToStringDigits(n / 10);
      var s := NatToString(n);
      assert s[..|s| - 1] == NatToString(n / 10);
    }
  }

  /** Rendering a 32-bit value and parsing it back gives the value. */
  lemma ParseRendered(n: u32)
    ensures ParseU32(NatToString(n)) == Some(n)
  {
    NatToStringDigits(n);
    assert NatToString(n)[0] != '+';
  }

  // ---------------------------------------------------------------------------
  // split, join, trim
  // ---------------------------------------------------------------------------

  /** `s.split(sep).collect()`: the pieces between separators, an empty string
      included wherever two separators or a separator and an end meet. */
  function Split(s: string, sep: char): (parts: seq<string>)
    ensures |parts| >= 1
  {
    if s == [] then [""]
    else
      var init := Split(s[..|s| - 1], sep);
      var c := s[|s| - 1];
      if c == sep then init + [""] else ExtendLast(init, [c])
  }

  /** Appends `b` to the last of `parts`. */
  function ExtendLast(parts: seq<string>, b: string): (r: seq<string>)
    requires |parts| >= 1
    ensures |r| == |parts|
  {
    parts[..|parts| - 1] + [parts[|parts| - 1] + b]
  }

  lemma ExtendLastTwice(parts: seq<string>, b: string, c: string)
    requires |parts| >= 1
    ensures ExtendLast(ExtendLast(parts, b), c) == ExtendLast(parts, b + c)
  {
    var once := ExtendLast(parts, b);
    assert once[..|once| - 1] == parts[..|parts| - 1];
    assert once[|once| - 1] + c == parts[|parts| - 1] + (b + c);
  }

  function Join(parts: seq<string>, sep: char): string {
    if |parts| == 0 then ""
    else if |parts| == 1 then parts[0]
    else Join(parts[..|parts| - 1], sep) + [sep] + parts[|parts| - 1]
  }

  lemma {:induction false} SplitPartsHaveNoSeparator(s: string, sep: char)
    ensures forall i :: 0 <= i < |Split(s, sep)| ==> sep !in Split(s, sep)[i]
  {
    if s != [] {
      SplitPartsHaveNoSeparator(s[..|s| - 1], sep);
    }
  }

  /** Joining the pieces with the separator restores the string. */
  lemma {:induction false} JoinSplit(s: string, sep: char)
    ensures Join(Split(s, sep), sep) == s
  {
    if s != [] {
      var prefix := s[..|s| - 1];
      var init := Split(prefix, sep);
      JoinSplit(prefix, sep);
      var c := s[|s| - 1];
      if c == sep {
        assert (init + [""])[..|init|] == init;
      } else {
        var front := init[..|init| - 1];
        var r := front + [init[|init| - 1] + [c]];
        assert r[..|r| - 1] == front;
        if |init| > 1 {
          assert init[..|init| - 1] == front;
        }
      }
      assert s == prefix + [c];
    }
  }

  /** There is more than one piece exactly when the separator occurs. */
  lemma {:induction false} SplitSeveral(s: string, sep: char)
    ensures |Split(s, sep)| > 1 <==> sep in s
  {
    if s != [] {
      var prefix := s[..|s| - 1];
      var c := s[|s| - 1];
      assert prefix + [c] == s;
      SplitSeveral(prefix, sep);
      SplitSnoc(prefix, c, sep);
    }
  }

  lemma SplitSnoc(s: string, c: char, sep: char)
    ensures Split(s + [c], sep) ==
      if c == sep then Split(s, sep) + [""] else ExtendLast(Split(s, sep), [c])
  {
    assert (s + [c])[..|s|] == s;
  }

  /** Appending text without the separator only lengthens the last piece. */
  lemma {:induction false} SplitAppendNoSeparator(x: string, b: string, sep: char)
    requires sep !in b
    ensures Split(x + b, sep) == ExtendLast(Split(x, sep), b)
  {
    var px := Split(x, sep);
    if b == [] {
      assert x + b == x;
      assert px[|px| - 1] + b == px[|px| - 1];
      assert px == px[..|px| - 1] + [px[|px| - 1]];
    } else {
      var b' := b[..|b| - 1];
      var c := b[|b| - 1];
      assert c in b;
      assert b == b' + [c];
      SplitAppendNoSeparator(x, b', sep);
      SplitSnoc(x + b', c, sep);
      assert x + b == (x + b') + [c];
      ExtendLastTwice(px, b', [c]);
    }
  }

  /** A string without the separator is a single piece. */
  lemma SplitNoSeparator(s: string, sep: char)
    requires sep !in s
    ensures Split(s, sep) == [s]
  {
    SplitAppendNoSeparator("", s, sep);
    assert "" + s == s;
  }

  lemma ExtendLastAppend(a: seq<string>, b: seq<string>, t: string)
    requires |b| >= 1
    ensures ExtendLast(a + b, t) == a + ExtendLast(b, t)
  {
    assert (a + b)[..|a + b| - 1] == a + b[..|b| - 1];
  }

  /** Splitting at a separator splits the two sides independently. */
  lemma {:induction false} SplitAtSeparator(x: string, y: string, sep: char)
    ensures Split(x + [sep] + y, sep) == Split(x, sep) + Split(y, sep)
  {
    if y == [] {
      assert x + [sep] + y == x + [sep];
      SplitSnoc(x, sep, sep);
    } else {
      var n := |y| - 1;
      var y', c := y[..n], y[n];
      PrefixSnoc(y, n);
      assert y[..|y|] == y;
      AppendAssociative(x + [sep], y', [c]);
      SplitAtSeparator(x, y', sep);
      SplitSnoc(x + [sep] + y', c, sep);
      SplitSnoc(y', c, sep);
      if c == sep {
        AppendAssociative(Split(x, sep), Split(y', sep), [""]);
      } else {
        ExtendLastAppend(Split(x, sep), Split(y', sep), [c]);
      }
    }
  }

  /** Splitting pieces joined with a separator they do not contain restores them. */
  lemma {:induction false} SplitJoin(parts: seq<string>, sep: char)
    requires |parts| >= 1
    requires forall i :: 0 <= i < |parts| ==> sep !in parts[i]
    ensures Split(Join(parts, sep), sep) == parts
  {
    var last := parts[|parts| - 1];
    if |parts| == 1 {
      SplitAppendNoSeparator("", last, sep);
      assert "" + last == last;
    } else {
      var init := parts[..|parts| - 1];
      SplitJoin(init, sep);
      var a := Join(init, sep);
      var px := Split(a + [sep], sep);
      SplitSnoc(a, sep, sep);
      assert px == init + [""];
      SplitAppendNoSeparator(a + [sep], last, sep);
      assert a + [sep] + last == Join(parts, sep);
      assert px[..|px| - 1] == init;
      assert px[|px| - 1] + last == last;
      assert ExtendLast(px, last) == init + [last];
      assert init + [last] == parts;
    }
  }

  /** Rust's `char::is_whitespace`: the Unicode White_Space property. */
  predicate IsWhitespace(c: char) {
    || c == ' '
    || ('\t' <= c <= '\r')
    || c == '\U{0085}'
    || c == '\U{00A0}'
    || c == '\U{1680}'
    || ('\U{2000}' <= c <= '\U{200A}')
    || c == '\U{2028}'
    || c == '\U{2029}'
    || c == '\U{202F}'
    || c == '\U{205F}'
    || c == '\U{3000}'
  }

  function TrimStart(s: string): string {
    if |s| > 0 && IsWhitespace(s[0]) then TrimStart(s[1..]) else s
  }

  function TrimEnd(s: string): string {
    if |s| > 0 && IsWhitespace(s[|s| - 1]) then TrimEnd(s[..|s| - 1]) else s
  }

  /** `s.trim()`. */
  function Trim(s: string): string {
    TrimEnd(TrimStart(s))
  }

  lemma TrimDigits(s: string)
    requires |s| > 0 && AllDigits(s)
    ensures Trim(s) == s
  {
    assert !IsWhitespace(s[0]) && !IsWhitespace(s[|s| - 1]);
  }

  // ---------------------------------------------------------------------------
  // ASCII case and hex digits
  // ---------------------------------------------------------------------------

  function LowerChar(c: char): char {
    if 'A' <= c <= 'Z' then (c as int + 32) as char else c
  }

  function UpperChar(c: char): char {
    if 'a' <= c <= 'z' then (c as int - 32) as char else c
  }

  function ToLower(s: string): (r: string)
    ensures |r| == |s| && forall i :: 0 <= i < |s| ==> r[i] == LowerChar(s[i])
  {
    seq(|s|, i requires 0 <= i < |s| => LowerChar(s[i]))
  }

  function ToUpper(s: string): (r: string)
    ensures |r| == |s| && forall i :: 0 <= i < |s| ==> r[i] == UpperChar(s[i])
  {
    seq(|s|, i requires 0 <= i < |s| => UpperChar(s[i]))
  }

  predicate IsLowerHex(c: char) {
    ('0' <= c <= '9') || ('a' <= c <= 'f')
  }

  predicate IsUpperHex(c: char) {
    ('0' <= c <= '9') || ('A' <= c <= 'F')
  }

  /** Replaces every occurrence of `c` by nothing (`s.replace("-", "")`). */
  function RemoveChar(s: string, c: char): (r: string)
    ensures c !in r
  {
    if s == [] then [] else (if s[0] == c then [] else [s[0]]) + RemoveChar(s[1..], c)
  }

  lemma {:induction false} RemoveCharAppend(a: string, b: string, c: char)
    ensures RemoveChar(a + b, c) == RemoveChar(a, c) + RemoveChar(b, c)
  {
    if a != [] {
      var head := if a[0] == c then [] else [a[0]];
      assert (a + b)[0] == a[0];
      assert (a + b)[1..] == a[1..] + b;
      RemoveCharAppend(a[1..], b, c);
      assert RemoveChar(a + b, c) == head + RemoveChar(a[1..] + b, c);
      assert RemoveChar(a, c) == head + RemoveChar(a[1..], c);
    } else {
      assert a + b == b;
    }
  }

  lemma {:induction false} RemoveCharAbsent(s: string, c: char)
    requires c !in s
    ensures RemoveChar(s, c) == s
  {
    if s != [] {
      RemoveCharAbsent(s[1..], c);
      assert s == [s[0]] + s[1..];
    }
  }

  // ---------------------------------------------------------------------------
  // Signing strings: the pairs of a map sorted by key, concatenated
  // ---------------------------------------------------------------------------

  /** `ps` lists the entries of `m`, each once, in increasing key order. */
  ghost predicate IsSortedListingOf(ps: seq<Pair>, m: map<string, string>) {
    StrictlySortedByKey(ps) && forall p: Pair :: p in ps <==> p.0 in m && p.1 == m[p.0]
  }

  /** Sorting a key-distinct listing of `m`'s entries gives its sorted listing. */
  lemma SortedListing(ps: seq<Pair>, m: map<string, string>)
    requires DistinctKeys(ps)
    requires forall p: Pair :: p in ps <==> p.0 in m && p.1 == m[p.0]
    ensures IsSortedListingOf(SortByKey(ps), m)
  {
    SortByKeyStrict(ps);
    SortByKeyElements(ps);
  }

  /** Any two sorted listings of the same map are the same sequence. */
  lemma SortedListingUnique(a: seq<Pair>, b: seq<Pair>, m: map<string, string>)
    requires IsSortedListingOf(a, m) && IsSortedListingOf(b, m)
    ensures a == b
  {
    StrictListingUnique(a, b);
  }

  /** The entries of a map, sorted by key and concatenated key+value. The
      iteration order is an argument, but the result does not depend on it. */
  function SigningString(m: StrMap): (s: string)
    ensures forall ps :: IsSortedListingOf(ps, m.contents) ==> s == ConcatPairs(ps)
  {
    var sorted := SortByKey(Entries(m));
    SortedListing(Entries(m), m.contents);
    forall ps | IsSortedListingOf(ps, m.contents) ensures sorted == ps {
      SortedListingUnique(sorted, ps, m.contents);
    }
    ConcatPairs(sorted)
  }

  /** Two maps with the same contents sign alike, whatever order iterating
      over them visits the keys in. */
  lemma SigningStringOrderIndependent(a: StrMap, b: StrMap)
    requires a.contents == b.contents
    ensures SigningString(a) == SigningString(b)
  {
    SortedListing(Entries(a), a.contents);
    assert IsSortedListingOf(SortByKey(Entries(a)), b.contents);
  }
}
