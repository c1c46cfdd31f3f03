/** Batch-file names: decimal millisecond timestamps, compared as strings (storage_write.cpp). */
module Filenames {
  import opened Options

  type Name = string

  /** Number of candidate names tried for one new file. */
  const ATTEMPTS: nat := 100

  // ---- decimal names ----

  function DigitChar(d: nat): char
    requires d < 10
  {
    '0' + d as char
  }

  function Digits(n: nat): (s: Name)
    ensures s != [] && IsNumeric(s)
  {
    if n < 10 then [DigitChar(n)] else Digits(n / 10) + [DigitChar(n % 10)]
  }

  predicate IsNumeric(s: Name) {
    forall i | 0 <= i < |s| :: '0' <= s[i] <= '9'
  }

  function Decimal(s: Name): nat
    requires IsNumeric(s)
  {
    if s == [] then 0 else Decimal(s[..|s| - 1]) * 10 + (s[|s| - 1] as nat - '0' as nat)
  }

  /** A name is the decimal notation of its timestamp, without leading zeros. */
  lemma {:induction false} DigitsAreDecimal(n: nat)
    ensures Decimal(Digits(n)) == n && (n > 0 ==> Digits(n)[0] != '0')
  {
    if n >= 10 {
      DigitsAreDecimal(n / 10);
      assert Digits(n)[..|Digits(n)| - 1] == Digits(n / 10);
    }
  }

  // ---- the order of std::string ----

  predicate Less(a: Name, b: Name) {
    b != [] && (a == [] || a[0] < b[0] || (a[0] == b[0] && Less(a[1..], b[1..])))
  }

  predicate Sorted(names: seq<Name>) {
    forall i, j | 0 <= i < j < |names| :: Less(names[i], names[j])
  }

  lemma LessIsTransitive(a: Name, b: Name, c: Name)
    requires Less(a, b) && Less(b, c)
    ensures Less(a, c)
  {
  }

  lemma LessIsTotal(a: Name, b: Name)
    ensures Less(a, b) || a == b || Less(b, a)
  {
    if a != [] && b != [] && a[0] == b[0] {
      LessIsTotal(a[1..], b[1..]);
      assert a == [a[0]] + a[1..] && b == [b[0]] + b[1..];
    }
  }

  lemma LessIsAsymmetric(a: Name, b: Name)
    requires Less(a, b)
    ensures !Less(b, a) && a != b
  {
  }

  /** The order is that of std::string: the first difference decides, and a proper prefix is less. */
  lemma {:induction false} LessAtFirstDifference(a: Name, b: Name)
    ensures Less(a, b) <==>
      exists k :: 0 <= k <= |a| && k < |b| && a[..k] == b[..k] && (k == |a| || a[k] < b[k])
  {
    if b != [] && (a == [] || a[0] < b[0]) {
      assert a[..0] == b[..0] && (0 == |a| || a[0] < b[0]);
    } else if b != [] && a[0] == b[0] {
      LessAtFirstDifference(a[1..], b[1..]);
      if Less(a, b) {
        var k :|
          && 0 <= k <= |a[1..]| && k < |b[1..]|
          && a[1..][..k] == b[1..][..k] && (k == |a[1..]| || a[1..][k] < b[1..][k]);
        assert a[..k + 1] == [a[0]] + a[1..][..k] && b[..k + 1] == [b[0]] + b[1..][..k];
      }
      if k :| 0 <= k <= |a| && k < |b| && a[..k] == b[..k] && (k == |a| || a[k] < b[k]) {
        assert a[1..][..k - 1] == a[..k][1..] && b[1..][..k - 1] == b[..k][1..];
      }
    } else {
      forall k | 0 < k <= |a| && k < |b|
        ensures a[..k] != b[..k]
      {
        assert a[..k][0] == a[0] && b[..k][0] == b[0];
      }
    }
  }

  /** Once two names differ at a position they both have, what follows does not matter. */
  lemma {:induction false} LessExtends(a: Name, b: Name, x: Name, y: Name)
    requires Less(a, b) && !(a <= b)
    ensures Less(a + x, b + y) && !(a + x <= b + y)
  {
    if a[0] == b[0] {
      LessExtends(a[1..], b[1..], x, y);
      assert (a + x)[1..] == a[1..] + x && (b + y)[1..] == b[1..] + y;
    }
  }

  predicate RollsOver(n: nat) {
    |Digits(n + 1)| > |Digits(n)|
  }

  /** Consecutive timestamps are in string order unless the second has one more digit: then
      the later one sorts before the earlier one. */
  lemma {:induction false} SuccessorOrder(n: nat)
    ensures if RollsOver(n)
      then Less(Digits(n + 1), Digits(n)) && !(Digits(n + 1) <= Digits(n))
      else Less(Digits(n), Digits(n + 1)) && !(Digits(n) <= Digits(n + 1)) && |Digits(n)| == |Digits(n + 1)|
  {
    if n >= 10 {
      var d, d', c := Digits(n / 10), Digits(n / 10 + 1), n % 10;
      SuccessorDigits(n);
      if c == 9 {
        SuccessorOrder(n / 10);
        if RollsOver(n / 10) {
          LessExtends(d', d, ['0'], ['9']);
        } else {
          LessExtends(d, d', ['9'], ['0']);
        }
      } else {
        LastCharDecides(d, DigitChar(c), DigitChar(c + 1));
      }
    }
  }

  lemma SuccessorDigits(n: nat)
    requires n >= 10
    ensures Digits(n) == Digits(n / 10) + [DigitChar(n % 10)]
    ensures Digits(n + 1) ==
      if n % 10 == 9 then Digits(n / 10 + 1) + ['0'] else Digits(n / 10) + [DigitChar(n % 10 + 1)]
  {
    if n % 10 == 9 {
      assert (n + 1) / 10 == n / 10 + 1 && (n + 1) % 10 == 0;
    } else {
      assert (n + 1) / 10 == n / 10 && (n + 1) % 10 == n % 10 + 1;
    }
  }

  lemma {:induction false} LastCharDecides(d: Name, c: char, c': char)
    requires c < c'
    ensures Less(d + [c], d + [c']) && !(d + [c] <= d + [c'])
  {
    if d != [] {
      LastCharDecides(d[1..], c, c');
      assert (d + [c])[1..] == d[1..] + [c] && (d + [c'])[1..] == d[1..] + [c'];
    }
  }

  // ---- allocation of a new name ----

  /** The least free timestamp among `count` candidates: what a caller wants. */
  function FirstFree(names: seq<Name>, from: nat, count: nat): Option<nat>
    decreases count
  {
    if count == 0 then None
    else if Digits(from) !in names then Some(from)
    else FirstFree(names, from + 1, count - 1)
  }

  predicate AllTaken(names: seq<Name>, from: nat, to: nat) {
    forall ms | from <= ms < to :: Digits(ms) in names
  }

  /** Every name from `now` through one that has a digit more than its predecessor is taken. */
  ghost predicate RollOverTaken(names: seq<Name>, now: nat) {
    exists ms :: now <= ms < now + ATTEMPTS - 1 && RollsOver(ms) && AllTaken(names, now, ms + 2)
  }

  /** What the search finds: it only moves forward in string order, so it does not see a name
      that has one digit more than its predecessor. */
  function Search(names: seq<Name>, ms: nat, count: nat): Option<nat>
    requires ms > 0
    decreases count
  {
    if count == 0 then None
    else if RollsOver(ms - 1) || Digits(ms) !in names then Some(ms)
    else Search(names, ms + 1, count - 1)
  }

  function Allocate(names: seq<Name>, now: nat): Option<nat> {
    if Digits(now) !in names then Some(now) else Search(names, now + 1, ATTEMPTS - 1)
  }

  lemma {:induction false} FirstFreeIsLeast(names: seq<Name>, from: nat, count: nat)
    ensures
      match FirstFree(names, from, count)
      case None => AllTaken(names, from, from + count)
      case Some(ms) => from <= ms < from + count && Digits(ms) !in names && AllTaken(names, from, ms)
    decreases count
  {
    if count > 0 && Digits(from) in names {
      FirstFreeIsLeast(names, from + 1, count - 1);
    }
  }

  method LowerBound(names: seq<Name>, key: Name) returns (at: nat)
    requires Sorted(names)
    ensures at <= |names|
    ensures forall i | 0 <= i < at :: Less(names[i], key)
    ensures forall i | at <= i < |names| :: !Less(names[i], key)
  {
    at := 0;
    var hi := |names|;
    while at < hi
      invariant at <= hi <= |names|
      invariant forall i | 0 <= i < at :: Less(names[i], key)
      invariant forall i | hi <= i < |names| :: !Less(names[i], key)
    {
      var mid := (at + hi) / 2;
      if Less(names[mid], key) {
        forall i | 0 <= i < mid
          ensures Less(names[i], key)
        {
          LessIsTransitive(names[i], names[mid], key);
        }
        at := mid + 1;
      } else {
        forall i | mid < i < |names|
          ensures !Less(names[i], key)
        {
          if Less(names[i], key) {
            LessIsTransitive(names[mid], names[i], key);
          }
        }
        hi := mid;
      }
    }
  }

  method FindIf(names: seq<Name>, from: nat, key: Name) returns (at: nat)
    requires from <= |names|
    ensures from <= at <= |names|
    ensures forall i | from <= i < at :: names[i] != key
    ensures at < |names| ==> names[at] == key
  {
    at := from;
    while at < |names| && names[at] != key
      invariant from <= at <= |names|
      invariant forall i | from <= i < at :: names[i] != key
    {
      at := at + 1;
    }
  }

  /** Where the next candidate can be, seen from the position of its predecessor. */
  lemma SuccessorPosition(names: seq<Name>, at: nat, ms: nat)
    requires Sorted(names) && at < |names| && names[at] == Digits(ms)
    ensures forall i | 0 <= i < |names| && names[i] == Digits(ms + 1) :: if RollsOver(ms) then i < at else at < i
  {
    SuccessorOrder(ms);
    forall i | 0 <= i < |names| && names[i] == Digits(ms + 1)
      ensures if RollsOver(ms) then i < at else at < i
    {
      if RollsOver(ms) {
        LessIsAsymmetric(names[i], names[at]);
      } else {
        LessIsAsymmetric(names[at], names[i]);
      }
    }
  }

  /** GetFilenameForNextWrite over a sorted listing without duplicates: binary search for the
      first candidate, then linear searches that only move forward. */
  method GetFilenameForNextWrite(names: seq<Name>, now: nat) returns (r: Option<nat>)
    requires Sorted(names)
    ensures r == Allocate(names, now)
  {
    var ms: nat := now;
    var it: nat := LowerBound(names, Digits(ms));
    if it == |names| || names[it] != Digits(ms) {
      AbsentAtLowerBound(names, Digits(ms), it);
      return Some(ms);
    }
    var offset := 1;
    while offset < ATTEMPTS
      invariant 1 <= offset <= ATTEMPTS
      invariant it < |names| && names[it] == Digits(ms)
      invariant Allocate(names, now) == Search(names, ms + 1, ATTEMPTS - offset)
    {
      SuccessorPosition(names, it, ms);
      ms := ms + 1;
      it := FindIf(names, it, Digits(ms));
      if it == |names| {
        return Some(ms);
      }
      offset := offset + 1;
    }
    return None;
  }

  /** The result is the least free name exactly unless every name up to and including one with
      an extra digit is taken; in that case the name handed out is in use. */
  lemma AllocationIsRightExactly(names: seq<Name>, now: nat)
    ensures Allocate(names, now) == FirstFree(names, now, 100) <==> !RollOverTaken(names, now)
    ensures RollOverTaken(names, now) ==> Allocate(names, now).Some? && Digits(Allocate(names, now).value) in names
  {
    if Digits(now) in names {
      SearchIsRightExactly(names, now, now + 1, ATTEMPTS - 1);
    }
  }

  lemma {:induction false} SearchIsRightExactly(names: seq<Name>, now: nat, ms: nat, count: nat)
    requires now < ms && ms + count == now + ATTEMPTS
    requires AllTaken(names, now, ms) && forall m | now <= m < ms - 1 :: !RollsOver(m)
    ensures Search(names, ms, count) == FirstFree(names, ms, count) <==> !RollOverTaken(names, now)
    ensures RollOverTaken(names, now) ==>
      Search(names, ms, count).Some? && Digits(Search(names, ms, count).value) in names
    decreases count
  {
    FirstFreeIsLeast(names, ms, count);
    if count > 0 && Digits(ms) in names {
      if RollsOver(ms - 1) {
        assert AllTaken(names, now, ms - 1 + 2);
      } else {
        SearchIsRightExactly(names, now, ms + 1, count - 1);
      }
    }
  }

  lemma AbsentAtLowerBound(names: seq<Name>, key: Name, at: nat)
    requires Sorted(names) && at <= |names|
    requires forall i | 0 <= i < at :: Less(names[i], key)
    requires forall i | at <= i < |names| :: !Less(names[i], key)
    requires at == |names| || names[at] != key
    ensures key !in names
  {
    forall i | 0 <= i < |names|
      ensures names[i] != key
    {
      if i < at {
        LessIsAsymmetric(names[i], key);
      } else if i > at {
        LessIsAsymmetric(names[at], names[i]);
      }
    }
  }

  lemma {:induction false} DigitCountIsMonotone(n: nat, m: nat)
    requires n <= m
    ensures |Digits(n)| <= |Digits(m)|
    decreases m - n
  {
    if n < m {
      SuccessorOrder(n);
      DigitCountIsMonotone(n + 1, m);
    }
  }

  /** While all candidates have the same number of digits, which is so for every millisecond
      clock between the years 2001 and 2286, allocation is right for every listing. */
  lemma SameDigitCountIsSafe(names: seq<Name>, now: nat)
    requires |Digits(now)| == |Digits(now + ATTEMPTS - 1)|
    ensures !RollOverTaken(names, now)
  {
    forall ms | now <= ms < now + ATTEMPTS - 1
      ensures !RollsOver(ms)
    {
      DigitCountIsMonotone(now, ms);
      DigitCountIsMonotone(ms + 1, now + ATTEMPTS - 1);
    }
  }

  /** A listing for which the name handed out is already in use. */
  lemma RollOverExample()
    ensures Sorted(["1000", "999"]) && RollOverTaken(["1000", "999"], 999)
  {
    var names := ["1000", "999"];
    assert Digits(999) == "999" && Digits(1000) == "1000";
    assert names[1] == Digits(999) && names[0] == Digits(1000);
    assert RollsOver(999) && AllTaken(names, 999, 1001);
  }
}
