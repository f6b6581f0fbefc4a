/** Helpers shared by every page and component of the dashboard: optional values, the
    JavaScript array and string operations the source relies on (`filter`, `includes`,
    `trim`, `toLowerCase`, `startsWith`, `padStart`, `Number.parseInt`, number-to-string),
    each with the properties the rest of the model uses. */
module Util {

  datatype Option<T> = None | Some(value: T)

  /** A thrown JavaScript error, or a value. */
  datatype Result<T> = Ok(value: T) | Err(message: string)

  // ---------------------------------------------------------------------------
  // Sequences
  // ---------------------------------------------------------------------------

  /** `r` is obtained from `s` by deleting elements; the order of what is left is kept. */
  predicate IsSubseq<T(==)>(r: seq<T>, s: seq<T>)
    decreases |s|
  {
    if r == [] then true
    else if s == [] then false
    else if r[|r| - 1] == s[|s| - 1] then IsSubseq(r[..|r| - 1], s[..|s| - 1])
    else IsSubseq(r, s[..|s| - 1])
  }

  /** No value occurs twice. */
  ghost predicate NoDup<T(!new)>(s: seq<T>) {
    forall x :: multiset(s)[x] <= 1
  }

  /** `Array.prototype.filter`: exactly the elements satisfying `p`, each as often as in
      `s`, in their original relative order. */
  function Filter<T(==,!new)>(s: seq<T>, p: T -> bool): (r: seq<T>)
    ensures |r| <= |s|
    ensures forall i :: 0 <= i < |r| ==> p(r[i])
    ensures forall x :: multiset(r)[x] == if p(x) then multiset(s)[x] else 0
    ensures forall x :: x in r <==> x in s && p(x)
    ensures IsSubseq(r, s)
    decreases |s|
  {
    if s == [] then []
    else
      var init, last := s[..|s| - 1], s[|s| - 1];
      assert s == init + [last];
      var r0 := Filter(init, p);
      if p(last) then
        assert (r0 + [last])[..|r0|] == r0;
        r0 + [last]
      else
        r0
  }

  /** Filtering distributes over concatenation. */
  lemma {:induction false} FilterConcat<T(!new)>(a: seq<T>, b: seq<T>, p: T -> bool)
    ensures Filter(a + b, p) == Filter(a, p) + Filter(b, p)
    decreases |b|
  {
    if b == [] {
      assert a + b == a;
    } else {
      var b0 := b[..|b| - 1];
      assert (a + b)[..|a + b| - 1] == a + b0;
      assert (a + b)[|a + b| - 1] == b[|b| - 1];
      FilterConcat(a, b0, p);
    }
  }

  /** A filter that keeps every element is the identity. */
  lemma {:induction false} FilterKeepsAll<T(!new)>(s: seq<T>, p: T -> bool)
    requires forall i :: 0 <= i < |s| ==> p(s[i])
    ensures Filter(s, p) == s
    decreases |s|
  {
    if s != [] {
      FilterKeepsAll(s[..|s| - 1], p);
      assert s == s[..|s| - 1] + [s[|s| - 1]];
    }
  }

  /** Filtering with a stronger predicate keeps a subsequence of what the weaker one keeps. */
  lemma {:induction false} FilterStronger<T(!new)>(s: seq<T>, p: T -> bool, q: T -> bool)
    requires forall x :: q(x) ==> p(x)
    ensures Filter(s, q) == Filter(Filter(s, p), q)
    ensures IsSubseq(Filter(s, q), Filter(s, p))
    decreases |s|
  {
    if s != [] {
      var init, last := s[..|s| - 1], s[|s| - 1];
      FilterStronger(init, p, q);
      if p(last) {
        FilterConcat(Filter(init, p), [last], q);
      }
    }
  }

  /** Two filters in a row keep the same elements whichever runs first. */
  lemma {:induction false} FilterCommute<T(!new)>(s: seq<T>, p: T -> bool, q: T -> bool)
    ensures Filter(Filter(s, p), q) == Filter(Filter(s, q), p)
    decreases |s|
  {
    if s != [] {
      var init, last := s[..|s| - 1], s[|s| - 1];
      FilterCommute(init, p, q);
      if p(last) {
        FilterConcat(Filter(init, p), [last], q);
      }
      if q(last) {
        FilterConcat(Filter(init, q), [last], p);
      }
    }
  }

  /** `s.filter(p).length`. */
  function Count<T(==,!new)>(s: seq<T>, p: T -> bool): (n: nat)
    ensures n <= |s|
    ensures n == 0 <==> forall i :: 0 <= i < |s| ==> !p(s[i])
  {
    var r := Filter(s, p);
    assert r != [] ==> r[0] in s;
    |r|
  }

  /** The positions of `s` whose element satisfies `p`. */
  function Positions<T>(s: seq<T>, p: T -> bool): set<int> {
    set i | 0 <= i < |s| && p(s[i])
  }

  /** The count is the number of positions whose element satisfies `p`. */
  lemma {:induction false} CountIndices<T(!new)>(s: seq<T>, p: T -> bool)
    ensures Count(s, p) == |Positions(s, p)|
    decreases |s|
  {
    if s != [] {
      var init, last := s[..|s| - 1], s[|s| - 1];
      assert s == init + [last];
      CountIndices(init, p);
      CountSnoc(init, last, p);
      IndicesSnoc(init, last, p);
      assert Count(s, p) == Count(init, p) + if p(last) then 1 else 0;
    }
  }

  /** Counting one more element. */
  lemma CountSnoc<T(!new)>(s: seq<T>, x: T, p: T -> bool)
    ensures Count(s + [x], p) == Count(s, p) + if p(x) then 1 else 0
  {
    assert (s + [x])[..|s + [x]| - 1] == s;
  }

  /** The satisfying positions of one more element. */
  lemma IndicesSnoc<T>(s: seq<T>, x: T, p: T -> bool)
    ensures |Positions(s + [x], p)| == |Positions(s, p)| + if p(x) then 1 else 0
  {
    var t := s + [x];
    var a, b := Positions(s, p), Positions(t, p);
    assert forall i :: 0 <= i < |s| ==> t[i] == s[i];
    assert |s| !in a;
    if p(x) {
      assert b == a + {|s|};
    } else {
      assert b == a;
    }
  }

  /** `s.filter(y => y !== x)`. */
  function Without<T(==,!new)>(s: seq<T>, x: T): (r: seq<T>)
    ensures x !in r
    ensures forall y :: y != x ==> multiset(r)[y] == multiset(s)[y]
    ensures IsSubseq(r, s)
  {
    Filter(s, (y: T) => y != x)
  }

  /** The toggle idiom `s.includes(x) ? s.filter(y => y !== x) : [...s, x]`. */
  function Toggle<T(==,!new)>(s: seq<T>, x: T): (r: seq<T>)
    ensures x in r <==> x !in s
    ensures forall y :: y != x ==> multiset(r)[y] == multiset(s)[y]
    ensures NoDup(s) ==> NoDup(r)
  {
    if x in s then Without(s, x) else s + [x]
  }

  /** Toggling twice gives back the same set of values, and exactly the same list when the
      value was absent to begin with. */
  lemma ToggleTwice<T(!new)>(s: seq<T>, x: T)
    ensures forall y :: y in Toggle(Toggle(s, x), x) <==> y in s
    ensures x !in s ==> Toggle(Toggle(s, x), x) == s
  {
    if x !in s {
      var p := (y: T) => y != x;
      FilterConcat(s, [x], p);
      FilterKeepsAll(s, p);
    }
  }

  /** In a list without repetitions, different positions hold different values. */
  lemma DistinctPositions<T(!new)>(s: seq<T>, i: nat, j: nat)
    requires NoDup(s) && i < |s| && j < |s| && i != j
    ensures s[i] != s[j]
  {
    var lo, hi := if i < j then i else j, if i < j then j else i;
    assert s == s[..lo] + [s[lo]] + s[lo + 1..hi] + [s[hi]] + s[hi + 1..];
    assert multiset(s)[s[lo]] >= multiset([s[lo]])[s[lo]] + multiset([s[hi]])[s[lo]];
  }

  /** `Array.from(new Set(s))`: the distinct values in order of first appearance. */
  function Distinct<T(==,!new)>(s: seq<T>): (r: seq<T>)
    ensures forall x :: x in r <==> x in s
    ensures NoDup(r)
    decreases |s|
  {
    if s == [] then []
    else
      var r0 := Distinct(s[..|s| - 1]);
      assert s == s[..|s| - 1] + [s[|s| - 1]];
      if s[|s| - 1] in r0 then r0 else r0 + [s[|s| - 1]]
  }

  /** Appending a value to the input appends it to the distinct values when it is new. */
  lemma DistinctSnoc<T(!new)>(s: seq<T>, x: T)
    ensures Distinct(s + [x]) == if x in Distinct(s) then Distinct(s) else Distinct(s) + [x]
  {
    assert (s + [x])[..|s|] == s;
  }

  /** `s.indexOf(x)` for a value that occurs. */
  function IndexOf<T(==)>(s: seq<T>, x: T): (i: nat)
    requires x in s
    ensures i < |s| && s[i] == x
    ensures forall j :: 0 <= j < i ==> s[j] != x
  {
    if s[0] == x then 0 else 1 + IndexOf(s[1..], x)
  }

  /** `s.slice(0, n)`. */
  function Take<T>(s: seq<T>, n: nat): (r: seq<T>)
    ensures |r| <= n && |r| <= |s|
    ensures |r| == if |s| < n then |s| else n
    ensures r == s[..|r|]
  {
    if |s| <= n then s else s[..n]
  }

  /** Where `Array.prototype.splice` starts: a negative start counts back from the end, and
      the position is clamped to the array. */
  function SpliceStart(start: int, len: nat): (k: nat)
    ensures k <= len
    ensures 0 <= start <= len ==> k == start
    ensures start > len ==> k == len
    ensures start < 0 && len + start >= 0 ==> k == len + start
    ensures len + start < 0 ==> k == 0
  {
    if start < 0 then (if len + start < 0 then 0 else len + start)
    else if start > len then len
    else start
  }

  /** How many elements `splice` removes when `avail` follow the start position. */
  function SpliceCount(deleteCount: int, avail: nat): (d: nat)
    ensures d <= avail
    ensures deleteCount <= 0 ==> d == 0
    ensures 0 <= deleteCount <= avail ==> d == deleteCount
    ensures deleteCount > avail ==> d == avail
  {
    if deleteCount <= 0 then 0 else if deleteCount < avail then deleteCount else avail
  }

  /** What `splice` returns, and what the array holds afterwards. */
  datatype Spliced<T> = Spliced(removed: seq<T>, result: seq<T>)

  /** `a.splice(start, deleteCount, ...items)` on an array holding `s`: the removed run is
      the at most `deleteCount` elements from the start position, the items take their
      place, and everything else stays where it was. */
  function Splice<T>(s: seq<T>, start: int, deleteCount: int, items: seq<T>): (r: Spliced<T>)
    ensures var k := SpliceStart(start, |s|);
      && |r.removed| == SpliceCount(deleteCount, |s| - k)
      && r.removed == s[k..k + |r.removed|]
      && |r.result| == |s| - |r.removed| + |items|
      && r.result[..k] == s[..k]
      && r.result[k..k + |items|] == items
      && r.result[k + |items|..] == s[k + |r.removed|..]
    ensures multiset(r.removed) + multiset(r.result) == multiset(s) + multiset(items)
  {
    var k := SpliceStart(start, |s|);
    var d := SpliceCount(deleteCount, |s| - k);
    var removed, result := s[k..k + d], s[..k] + items + s[k + d..];
    SpliceParts(s, k, d, items);
    Spliced(removed, result)
  }

  lemma SpliceParts<T>(s: seq<T>, k: nat, d: nat, items: seq<T>)
    requires k + d <= |s|
    ensures var result := s[..k] + items + s[k + d..];
      && result[..k] == s[..k]
      && result[k..k + |items|] == items
      && result[k + |items|..] == s[k + d..]
      && multiset(s[k..k + d]) + multiset(result) == multiset(s) + multiset(items)
  {
    var result := s[..k] + items + s[k + d..];
    assert result[..k] == s[..k];
    assert result[k..k + |items|] == items;
    assert result[k + |items|..] == s[k + d..];
    assert s == s[..k] + s[k..k + d] + s[k + d..];
  }

  // ---------------------------------------------------------------------------
  // Strings
  // ---------------------------------------------------------------------------

  /** The characters `String.prototype.trim` removes (the ASCII ones and the common Unicode
      line and space separators). */
  predicate IsWhiteSpace(c: char) {
    c == ' ' || c == '\t' || c == '\n' || c == '\r' || c == '\U{B}' || c == '\U{C}'
    || c == '\U{A0}' || c == '\U{FEFF}' || c == '\U{2028}' || c == '\U{2029}'
  }

  predicate IsBlank(s: string) {
    forall i :: 0 <= i < |s| ==> IsWhiteSpace(s[i])
  }

  /** Drops the leading white space. */
  function TrimStart(s: string): (r: string)
    ensures |r| <= |s| && r == s[|s| - |r|..]
    ensures IsBlank(s[..|s| - |r|])
    ensures r != [] ==> !IsWhiteSpace(r[0])
  {
    if s == [] || !IsWhiteSpace(s[0]) then s
    else
      var r := TrimStart(s[1..]);
      assert s[..|s| - |r|] == [s[0]] + s[1..][..|s| - 1 - |r|];
      r
  }

  /** Drops the trailing white space. */
  function TrimEnd(s: string): (r: string)
    ensures |r| <= |s| && r == s[..|r|]
    ensures IsBlank(s[|r|..])
    ensures r != [] ==> !IsWhiteSpace(r[|r| - 1])
  {
    if s == [] || !IsWhiteSpace(s[|s| - 1]) then s
    else
      var r := TrimEnd(s[..|s| - 1]);
      assert s[|r|..] == s[..|s| - 1][|r|..] + [s[|s| - 1]];
      r
  }

  /** How many leading white-space characters `trim` drops. */
  function LeadingBlanks(s: string): (n: nat)
    ensures n <= |s| && IsBlank(s[..n])
  {
    |s| - |TrimStart(s)|
  }

  /** `String.prototype.trim`: the text between the leading and the trailing white space,
      which starts and ends with a character that is not white space. */
  function Trim(s: string): (r: string)
    ensures LeadingBlanks(s) + |r| <= |s|
    ensures r == s[LeadingBlanks(s)..LeadingBlanks(s) + |r|]
    ensures IsBlank(s[..LeadingBlanks(s)]) && IsBlank(s[LeadingBlanks(s) + |r|..])
    ensures r != [] ==> !IsWhiteSpace(r[0]) && !IsWhiteSpace(r[|r| - 1])
  {
    var t := TrimStart(s);
    var r := TrimEnd(t);
    var i := |s| - |t|;
    assert t == s[i..];
    assert r == s[i..i + |r|] && t[|r|..] == s[i + |r|..];
    r
  }

  /** `s.trim() === ""` holds exactly for strings made of white space only. */
  lemma TrimEmptyIffBlank(s: string)
    ensures Trim(s) == "" <==> IsBlank(s)
  {
    if IsBlank(s) {
      BlankTrimsEmpty(s);
    }
    if Trim(s) == "" {
      TrimmedEmptyIsBlank(s);
    }
  }

  lemma {:induction false} BlankTrimsEmpty(s: string)
    requires IsBlank(s)
    ensures TrimStart(s) == []
    decreases |s|
  {
    if s != [] {
      assert IsWhiteSpace(s[0]);
      BlankTrimsEmpty(s[1..]);
    }
  }

  lemma TrimmedEmptyIsBlank(s: string)
    requires Trim(s) == ""
    ensures IsBlank(s)
  {
    var i := LeadingBlanks(s);
    assert i == |s| by {
      var t := TrimStart(s);
      assert TrimEnd(t) == [];
    }
    assert s[..i] == s;
  }

  /** `s.startsWith(p)`. */
  predicate StartsWith(s: string, p: string) {
    |p| <= |s| && s[..|p|] == p
  }

  /** `s.endsWith(q)`. */
  predicate EndsWith(s: string, q: string) {
    |q| <= |s| && s[|s| - |q|..] == q
  }

  /** `t` occurs in `s` starting at position `i`. */
  predicate OccursAt(s: string, t: string, i: int) {
    0 <= i && i + |t| <= |s| && s[i..i + |t|] == t
  }

  /** `s.includes(t)`: tries every start position from the left. */
  predicate Contains(s: string, t: string)
    decreases |s|
  {
    StartsWith(s, t) || (s != [] && Contains(s[1..], t))
  }

  /** `includes` holds exactly when the search string occurs at some position. */
  lemma {:induction false} ContainsIff(s: string, t: string)
    ensures Contains(s, t) <==> exists i :: OccursAt(s, t, i)
    decreases |s|
  {
    if StartsWith(s, t) {
      assert OccursAt(s, t, 0);
    } else if s == [] {
      assert forall i :: !OccursAt(s, t, i);
    } else {
      ContainsIff(s[1..], t);
      if Contains(s[1..], t) {
        var i :| OccursAt(s[1..], t, i);
        assert s[1..][i..i + |t|] == s[i + 1..i + 1 + |t|];
        assert OccursAt(s, t, i + 1);
      } else {
        forall i | OccursAt(s, t, i)
          ensures false
        {
          assert i != 0;
          assert s[1..][i - 1..i - 1 + |t|] == s[i..i + |t|];
          assert OccursAt(s[1..], t, i - 1);
        }
      }
    }
  }

  /** The empty string is contained in every string. */
  lemma ContainsEmpty(s: string)
    ensures Contains(s, "")
  {
  }

  /** ASCII part of `toLowerCase`. */
  function LowerChar(c: char): (d: char)
    ensures 'A' <= c <= 'Z' ==> 'a' <= d <= 'z' && d as int - c as int == 32
    ensures !('A' <= c <= 'Z') ==> d == c
  {
    if 'A' <= c <= 'Z' then (c as int + 32) as char else c
  }

  /** `s.toLowerCase()`, on ASCII letters. */
  function Lower(s: string): (r: string)
    ensures |r| == |s|
    ensures forall i :: 0 <= i < |s| ==> r[i] == LowerChar(s[i])
    ensures forall i :: 0 <= i < |r| ==> !('A' <= r[i] <= 'Z')
  {
    seq(|s|, i requires 0 <= i < |s| => LowerChar(s[i]))
  }

  /** `s.toLowerCase().includes(t.toLowerCase())`. */
  predicate ContainsIgnoreCase(s: string, t: string) {
    Contains(Lower(s), Lower(t))
  }

  // ---------------------------------------------------------------------------
  // Numbers as text
  // ---------------------------------------------------------------------------

  predicate IsDigit(c: char) {
    '0' <= c <= '9'
  }

  predicate AllDigits(s: string) {
    forall i :: 0 <= i < |s| ==> IsDigit(s[i])
  }

  function DigitChar(d: nat): (c: char)
    requires d < 10
    ensures IsDigit(c) && c as int - '0' as int == d
  {
    ('0' as int + d) as char
  }

  /** The number a string of decimal digits denotes. */
  function DigitsValue(s: string): nat
    requires AllDigits(s)
    decreases |s|
  {
    if s == [] then 0 else DigitsValue(s[..|s| - 1]) * 10 + (s[|s| - 1] as int - '0' as int)
  }

  /** `n.toString()` for a non-negative integer: its decimal digits, no leading zero. */
  function NatToString(n: nat): (r: string)
    ensures |r| >= 1 && AllDigits(r)
    ensures |r| == 1 <==> n < 10
    ensures n < 100 ==> |r| <= 2
    ensures |r| > 1 ==> r[0] != '0'
    decreases n
  {
    if n < 10 then [DigitChar(n)] else NatToString(n / 10) + [DigitChar(n % 10)]
  }

  /** Reading the digits back gives the number. */
  lemma {:induction false} NatToStringValue(n: nat)
    ensures DigitsValue(NatToString(n)) == n
    decreases n
  {
    if n >= 10 {
      NatToStringValue(n / 10);
      var s := NatToString(n);
      assert s[..|s| - 1] == NatToString(n / 10);
    }
  }

  /** `n.toString()` for any integer. */
  function IntToString(n: int): (r: string)
    ensures |r| >= 1
    ensures n >= 0 ==> AllDigits(r)
    ensures n < 0 ==> r[0] == '-' && AllDigits(r[1..])
  {
    if n < 0 then "-" + NatToString(-n) else NatToString(n)
  }

  /** Length of the longest all-digit prefix. */
  function DigitPrefixLength(s: string): (k: nat)
    ensures k <= |s| && AllDigits(s[..k])
    ensures k < |s| ==> !IsDigit(s[k])
  {
    if s == [] || !IsDigit(s[0]) then 0
    else
      var k := 1 + DigitPrefixLength(s[1..]);
      assert s[..k] == [s[0]] + s[1..][..k - 1];
      k
  }

  /** `Number.parseInt(s)` in base 10: leading white space, an optional sign, then the
      longest run of digits; `None` stands for `NaN` (no digit at all). */
  function ParseInt(s: string): (r: Option<int>)
    ensures var t := TrimStart(s);
      var body := if t != [] && (t[0] == '-' || t[0] == '+') then t[1..] else t;
      && (r.Some? <==> body != [] && IsDigit(body[0]))
      && (r.Some? && r.value < 0 ==> t[0] == '-')
      && (r.Some? ==> DigitsValue(body[..DigitPrefixLength(body)]) == if r.value < 0 then -r.value else r.value)
  {
    ParseSigned(TrimStart(s))
  }

  /** An optional sign, then the digits. */
  function ParseSigned(t: string): Option<int> {
    if t != [] && t[0] == '-' then Negated(ParseDigits(t[1..]))
    else if t != [] && t[0] == '+' then ParseDigits(t[1..])
    else ParseDigits(t)
  }

  /** The value of the longest run of leading digits, `None` when there is none. */
  function ParseDigits(body: string): Option<int> {
    var k := DigitPrefixLength(body);
    if k == 0 then None else Some(DigitsValue(body[..k]))
  }

  function Negated(r: Option<int>): Option<int> {
    if r.Some? then Some(-r.value) else None
  }

  /** `Number.parseInt(n.toString()) === n`: a numeric id survives the round trip through
      the string value of a select box. */
  lemma ParseIntToString(n: int)
    ensures ParseInt(IntToString(n)) == Some(n)
  {
    var m: nat := if n < 0 then -n else n;
    var digits := NatToString(m);
    assert ParseDigits(digits) == Some(m) by {
      NatToStringValue(m);
      AllDigitsParse(digits);
    }
    if n < 0 {
      assert IntToString(n) == "-" + digits;
      NegativeParse(digits);
    } else {
      assert IntToString(n) == digits;
      UnsignedParse(digits);
    }
  }

  /** A string starting with a digit parses as its leading digits. */
  lemma UnsignedParse(digits: string)
    requires digits != [] && IsDigit(digits[0])
    ensures ParseInt(digits) == ParseDigits(digits)
  {
    TrimStartKeeps(digits);
  }

  /** A minus sign before a string negates its leading digits. */
  lemma NegativeParse(digits: string)
    ensures ParseInt("-" + digits) == Negated(ParseDigits(digits))
  {
    var s := "-" + digits;
    TrimStartKeeps(s);
    assert ParseSigned(s) == Negated(ParseDigits(s[1..]));
    assert s[1..] == digits;
  }

  /** Nothing is trimmed from a string that does not start with white space. */
  lemma TrimStartKeeps(s: string)
    requires s != [] && !IsWhiteSpace(s[0])
    ensures TrimStart(s) == s
  {
  }

  /** A run of digits parses as its value. */
  lemma AllDigitsParse(digits: string)
    requires digits != [] && AllDigits(digits)
    ensures ParseDigits(digits) == Some(DigitsValue(digits))
  {
    AllDigitsPrefix(digits);
    assert digits[..|digits|] == digits;
  }

  lemma {:induction false} AllDigitsPrefix(s: string)
    requires AllDigits(s)
    ensures DigitPrefixLength(s) == |s|
    decreases |s|
  {
    if s != [] {
      AllDigitsPrefix(s[1..]);
    }
  }

  /** `s.padStart(width, c)`. */
  function PadStart(s: string, width: nat, c: char): (r: string)
    ensures |r| == if |s| < width then width else |s|
    ensures EndsWith(r, s)
    ensures forall i :: 0 <= i < |r| - |s| ==> r[i] == c
  {
    if |s| < width then seq(width - |s|, _ => c) + s else s
  }

  /** An id made of a prefix and a clock reading in decimal, as `` `task-${Date.now()}` ``. */
  function StampedId(prefix: string, now: nat): (id: string)
    ensures |id| > |prefix| && id[..|prefix|] == prefix && AllDigits(id[|prefix|..])
    ensures DigitsValue(id[|prefix|..]) == now
  {
    NatToStringValue(now);
    assert (prefix + NatToString(now))[|prefix|..] == NatToString(now);
    prefix + NatToString(now)
  }

  /** Ids stamped at different instants differ. */
  lemma StampedIdInjective(prefix: string, m: nat, n: nat)
    requires m != n
    ensures StampedId(prefix, m) != StampedId(prefix, n)
  {
  }

  /** A list of names after submitting `s`: unchanged when `s` is blank, otherwise `s`
      appended as typed, untrimmed. */
  function AppendUnlessBlank(items: seq<string>, s: string): (r: seq<string>)
    ensures IsBlank(s) ==> r == items
    ensures !IsBlank(s) ==> r == items + [s]
  {
    TrimEmptyIffBlank(s);
    if Trim(s) != "" then items + [s] else items
  }
}
