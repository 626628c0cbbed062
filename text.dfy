/** String helpers shared by every module: decimal rendering and parsing
    (Python's str(int), int(s) and int(float(s)) on the forms the program
    meets), str.strip, str.lower, the `in` substring test, str.join and the
    ordering Python's sorted() uses on strings. */
module Text {
  import opened Wrappers

  // ---------------------------------------------------------------------------
  // Decimal numbers
  // ---------------------------------------------------------------------------

  predicate IsDigit(c: char) { '0' <= c <= '9' }

  predicate AllDigits(s: string) { forall i :: 0 <= i < |s| ==> IsDigit(s[i]) }

  function DigitChar(d: nat): (c: char)
    requires d < 10
    ensures IsDigit(c)
  {
    (48 + d) as char
  }

  function DigitValue(c: char): (d: nat)
    requires IsDigit(c)
    ensures d < 10 && DigitChar(d) == c
  {
    c as int - 48
  }

  /** The decimal digits of n, most significant first, without leading zeros. */
  function Digits(n: nat): (s: string)
    ensures |s| >= 1 && AllDigits(s)
    ensures n >= 10 ==> s[0] != '0'
  {
    if n < 10 then [DigitChar(n)] else Digits(n / 10) + [DigitChar(n % 10)]
  }

  /** Python's str(i) for an int. */
  function IntToString(i: int): string
  {
    if i < 0 then "-" + Digits(-i) else Digits(i)
  }

  /** The value of a string of decimal digits (the empty string reads as 0). */
  function DigitsValue(s: string): nat
    requires AllDigits(s)
  {
    if |s| == 0 then 0 else DigitsValue(s[..|s| - 1]) * 10 + DigitValue(s[|s| - 1])
  }

  /** An unsigned run of one or more decimal digits. */
  function ParseNat(s: string): (r: Option<nat>)
    ensures r.Some? <==> |s| > 0 && AllDigits(s)
  {
    if |s| > 0 && AllDigits(s) then Some(DigitsValue(s)) else None
  }

  /** Python's int(s) on an already stripped string: an optional sign and
      one or more decimal digits. */
  function ParseInt(s: string): (r: Option<int>)
    ensures |s| == 0 ==> r == None
  {
    if |s| > 0 && (s[0] == '-' || s[0] == '+') then
      match ParseNat(s[1..])
      case None => None
      case Some(n) => Some(Signed(s[0], n))
    else
      match ParseNat(s)
      case None => None
      case Some(n) => Some(n)
  }

  /** n with the sign written in front of it. */
  function Signed(sign: char, n: nat): int
  {
    if sign == '-' then -(n as int) else n
  }

  lemma {:induction false} DigitsValueOfDigits(n: nat)
    ensures DigitsValue(Digits(n)) == n
  {
    if n >= 10 {
      var s := Digits(n);
      assert s[..|s| - 1] == Digits(n / 10);
      DigitsValueOfDigits(n / 10);
    }
  }

  /** Reading back what str(i) wrote gives i again. */
  lemma IntToStringRoundTrip(i: int)
    ensures ParseInt(IntToString(i)) == Some(i)
  {
    var s := IntToString(i);
    if i < 0 {
      assert s[0] == '-' && s[1..] == Digits(-i);
      DigitsValueOfDigits(-i);
      assert ParseNat(s[1..]) == Some(-i);
    } else {
      assert IsDigit(s[0]);
      DigitsValueOfDigits(i);
      assert ParseNat(s) == Some(i);
    }
  }

  /** A number written before a unit reads back once the unit is cut off. */
  lemma NumberThenUnit(n: int, unit: string)
    ensures |IntToString(n) + unit| >= |unit|
    ensures var t := IntToString(n) + unit; ParseInt(t[..|t| - |unit|]) == Some(n)
  {
    var t := IntToString(n) + unit;
    assert t[..|t| - |unit|] == IntToString(n);
    IntToStringRoundTrip(n);
  }

  /** Python's int(float(s)) on an already stripped string written as
      [sign] digits [. digits] or [sign] . digits: the number truncated
      toward zero. */
  function ParseTruncatedDecimal(s: string): (r: Option<int>)
    ensures AllDigits(s) && |s| > 0 ==> r == Some(DigitsValue(s))
  {
    if |s| > 0 && (s[0] == '-' || s[0] == '+') then
      match UnsignedTruncated(s[1..])
      case None => None
      case Some(n) => Some(Signed(s[0], n))
    else
      UnsignedTruncated(s)
  }

  /** The integer part of "ddd", "ddd.", "ddd.fff" or ".fff". */
  function UnsignedTruncated(s: string): (r: Option<nat>)
    ensures AllDigits(s) && |s| > 0 ==> r == Some(DigitsValue(s))
  {
    var k := IndexOf(s, '.');
    if k == |s| then
      ParseNat(s)
    else
      var whole, frac := s[..k], s[k + 1..];
      if AllDigits(whole) && AllDigits(frac) && |whole| + |frac| > 0 then
        Some(DigitsValue(whole))
      else
        None
  }

  /** The first position of c in s, or |s| when c does not occur. */
  function IndexOf(s: string, c: char): (k: nat)
    ensures k <= |s|
    ensures k < |s| ==> s[k] == c
    ensures forall j :: 0 <= j < k ==> s[j] != c
  {
    if |s| == 0 then 0 else if s[0] == c then 0 else 1 + IndexOf(s[1..], c)
  }

  /** Integers written by str() are read back unchanged by int(float(.)). */
  lemma IntToStringTruncatedRoundTrip(i: int)
    ensures ParseTruncatedDecimal(IntToString(i)) == Some(i)
  {
    var s := IntToString(i);
    if i < 0 {
      assert s[1..] == Digits(-i);
      DigitsValueOfDigits(-i);
    } else {
      DigitsValueOfDigits(i);
    }
  }

  /** Two-digit rendering used by "%02d", "%H", "%M", "%m" and "%d". */
  function Pad2(n: int): string
  {
    if 0 <= n < 10 then "0" + IntToString(n) else IntToString(n)
  }

  // ---------------------------------------------------------------------------
  // strip, lower, prefix
  // ---------------------------------------------------------------------------

  /** The ASCII whitespace that Python's str.strip() removes. */
  predicate IsSpace(c: char)
  {
    c == ' ' || c == '\t' || c == '\n' || c == '\r' || c as int == 11 || c as int == 12
  }

  /** The number of whitespace characters s starts with. */
  function LeadingSpaces(s: string): (n: nat)
    ensures n <= |s|
    ensures forall i :: 0 <= i < n ==> IsSpace(s[i])
    ensures n < |s| ==> !IsSpace(s[n])
  {
    if |s| > 0 && IsSpace(s[0]) then 1 + LeadingSpaces(s[1..]) else 0
  }

  function StripRight(s: string): (r: string)
    ensures |r| <= |s| && r == s[..|r|]
    ensures forall i :: |r| <= i < |s| ==> IsSpace(s[i])
    ensures |r| > 0 ==> !IsSpace(r[|r| - 1])
  {
    if |s| > 0 && IsSpace(s[|s| - 1]) then StripRight(s[..|s| - 1]) else s
  }

  /** Python's str.strip(): what is left after cutting the whitespace off
      both ends; it neither starts nor ends with whitespace. */
  function Strip(s: string): (r: string)
    ensures LeadingSpaces(s) + |r| <= |s|
    ensures r == s[LeadingSpaces(s)..LeadingSpaces(s) + |r|]
    ensures forall j :: LeadingSpaces(s) + |r| <= j < |s| ==> IsSpace(s[j])
    ensures |r| > 0 ==> !IsSpace(r[0]) && !IsSpace(r[|r| - 1])
  {
    var i := LeadingSpaces(s);
    var r := StripRight(s[i..]);
    assert r == s[i..][..|r|] == s[i..i + |r|];
    assert forall j :: i + |r| <= j < |s| ==> s[j] == s[i..][j - i];
    assert |r| > 0 ==> r[0] == s[i];
    r
  }

  function LowerChar(c: char): char
  {
    if 'A' <= c <= 'Z' then (c as int + 32) as char else c
  }

  /** Python's str.lower() on ASCII letters. */
  function Lower(s: string): (r: string)
    ensures |r| == |s|
  {
    seq(|s|, i requires 0 <= i < |s| => LowerChar(s[i]))
  }

  lemma LowerIdempotent(s: string)
    ensures Lower(Lower(s)) == Lower(s)
  {
  }

  lemma LowerSlice(s: string, i: nat, j: nat)
    requires i <= j <= |s|
    ensures Lower(s)[i..j] == Lower(s[i..j])
  {
  }

  lemma {:induction false} LeadingSpacesLower(s: string)
    ensures LeadingSpaces(Lower(s)) == LeadingSpaces(s)
  {
    if |s| > 0 {
      assert Lower(s)[0] == LowerChar(s[0]);
      assert IsSpace(LowerChar(s[0])) == IsSpace(s[0]);
      LowerSlice(s, 1, |s|);
      assert Lower(s)[1..] == Lower(s[1..]);
      LeadingSpacesLower(s[1..]);
    }
  }

  lemma {:induction false} StripRightLower(s: string)
    ensures StripRight(Lower(s)) == Lower(StripRight(s))
    decreases |s|
  {
    if |s| > 0 {
      assert Lower(s)[|s| - 1] == LowerChar(s[|s| - 1]);
      assert IsSpace(LowerChar(s[|s| - 1])) == IsSpace(s[|s| - 1]);
      LowerSlice(s, 0, |s| - 1);
      StripRightLower(s[..|s| - 1]);
    }
  }

  /** Lower-casing and stripping can be done in either order: no letter is
      whitespace. */
  lemma StripLower(s: string)
    ensures Strip(Lower(s)) == Lower(Strip(s))
  {
    LeadingSpacesLower(s);
    var i := LeadingSpaces(s);
    var l := Lower(s);
    assert Strip(l) == StripRight(l[i..]);
    assert Strip(s) == StripRight(s[i..]);
    LowerSlice(s, i, |s|);
    assert l[i..] == Lower(s[i..]);
    StripRightLower(s[i..]);
  }

  /** Python's s[:n]. */
  function Take<T>(s: seq<T>, n: nat): (r: seq<T>)
    ensures |r| <= n && |r| <= |s|
    ensures |s| <= n ==> r == s
    ensures n <= |s| ==> |r| == n
    ensures r == s[..|r|]
  {
    if |s| <= n then s else s[..n]
  }

  predicate StartsWith(s: string, p: string)
  {
    |p| <= |s| && s[..|p|] == p
  }

  predicate EndsWith(s: string, p: string)
  {
    |p| <= |s| && s[|s| - |p|..] == p
  }

  // ---------------------------------------------------------------------------
  // Substrings
  // ---------------------------------------------------------------------------

  /** t occurs in s at position i. */
  predicate OccursAt(s: string, t: string, i: int)
  {
    0 <= i && i + |t| <= |s| && s[i..i + |t|] == t
  }

  /** Python's `t in s`, searched left to right. */
  function Contains(s: string, t: string): bool
  {
    if |t| > |s| then false
    else if s[..|t|] == t then true
    else Contains(s[1..], t)
  }

  /** The search agrees with the existence of an occurrence. */
  lemma {:induction false} ContainsIff(s: string, t: string)
    ensures Contains(s, t) <==> exists i :: OccursAt(s, t, i)
  {
    if |t| > |s| {
    } else if s[..|t|] == t {
      assert OccursAt(s, t, 0);
    } else {
      ContainsIff(s[1..], t);
      if Contains(s[1..], t) {
        var i :| OccursAt(s[1..], t, i);
        assert s[i + 1..i + 1 + |t|] == s[1..][i..i + |t|];
        assert OccursAt(s, t, i + 1);
      } else {
        forall i | OccursAt(s, t, i)
          ensures false
        {
          assert i != 0;
          assert s[1..][i - 1..i - 1 + |t|] == s[i..i + |t|];
          assert OccursAt(s[1..], t, i - 1);
        }
      }
    }
  }

  /** An occurrence of a character that s never contains is impossible. */
  lemma AbsentCharBlocksOccurrence(s: string, t: string, k: nat, c: char)
    requires k < |t| && t[k] == c
    requires forall j :: 0 <= j < |s| ==> s[j] != c
    ensures !Contains(s, t)
  {
    ContainsIff(s, t);
  }

  // ---------------------------------------------------------------------------
  // Joining and layout
  // ---------------------------------------------------------------------------

  /** Python's sep.join(parts). */
  function Join(parts: seq<string>, sep: string): string
  {
    if |parts| == 0 then ""
    else if |parts| == 1 then parts[0]
    else parts[0] + sep + Join(parts[1..], sep)
  }

  /** Every joined part is found in the result. */
  lemma {:induction false} JoinContainsParts(parts: seq<string>, sep: string, k: nat)
    requires k < |parts|
    ensures exists i :: OccursAt(Join(parts, sep), parts[k], i)
  {
    var s := Join(parts, sep);
    if |parts| == 1 {
      assert OccursAt(s, parts[0], 0);
    } else if k == 0 {
      assert s[..|parts[0]|] == parts[0];
      assert OccursAt(s, parts[0], 0);
    } else {
      JoinContainsParts(parts[1..], sep, k - 1);
      var rest := Join(parts[1..], sep);
      var i :| OccursAt(rest, parts[k], i);
      var off := |parts[0]| + |sep|;
      assert s == parts[0] + sep + rest;
      assert s[off + i..off + i + |parts[k]|] == rest[i..i + |parts[k]|];
      assert OccursAt(s, parts[k], off + i);
    }
  }

  /** gaps[0] + parts[0] + gaps[1] + ... + parts[n-1] + gaps[n]: a fixed
      template whose holes are filled with parts. */
  function Interleave(gaps: seq<string>, parts: seq<string>): string
    requires |gaps| == |parts| + 1
  {
    if |parts| == 0 then gaps[0]
    else gaps[0] + parts[0] + Interleave(gaps[1..], parts[1..])
  }

  /** The parts occur in s one after the other, without overlapping. */
  ghost predicate InOrder(s: string, parts: seq<string>)
    decreases |parts|
  {
    |parts| == 0 ||
    exists i :: OccursAt(s, parts[0], i) && InOrder(s[i + |parts[0]|..], parts[1..])
  }

  /** A filled template shows its parts in order and ends with its last gap. */
  lemma {:induction false} InterleaveInOrder(gaps: seq<string>, parts: seq<string>)
    requires |gaps| == |parts| + 1
    ensures InOrder(Interleave(gaps, parts), parts)
    ensures EndsWith(Interleave(gaps, parts), gaps[|gaps| - 1])
  {
    var s := Interleave(gaps, parts);
    if |parts| > 0 {
      var rest := Interleave(gaps[1..], parts[1..]);
      InterleaveInOrder(gaps[1..], parts[1..]);
      var i := |gaps[0]|;
      assert s == gaps[0] + parts[0] + rest;
      assert s[i..i + |parts[0]|] == parts[0];
      assert s[i + |parts[0]|..] == rest;
      assert OccursAt(s, parts[0], i);
    }
  }

  /** Text put in front does not disturb an in-order occurrence. */
  lemma InOrderPrepend(u: string, t: string, parts: seq<string>)
    requires InOrder(t, parts)
    ensures InOrder(u + t, parts)
  {
    if |parts| > 0 {
      var i :| OccursAt(t, parts[0], i) && InOrder(t[i + |parts[0]|..], parts[1..]);
      var s := u + t;
      assert s[|u| + i..|u| + i + |parts[0]|] == t[i..i + |parts[0]|];
      assert s[|u| + i + |parts[0]|..] == t[i + |parts[0]|..];
      assert OccursAt(s, parts[0], |u| + i);
    }
  }

  /** Text put after does not disturb an in-order occurrence. */
  lemma {:induction false} InOrderAppend(u: string, t: string, parts: seq<string>)
    requires InOrder(u, parts)
    ensures InOrder(u + t, parts)
    decreases |parts|
  {
    if |parts| > 0 {
      var i :| OccursAt(u, parts[0], i) && InOrder(u[i + |parts[0]|..], parts[1..]);
      var s := u + t;
      var rest := u[i + |parts[0]|..];
      InOrderAppend(rest, t, parts[1..]);
      assert s[i..i + |parts[0]|] == u[i..i + |parts[0]|];
      assert s[i + |parts[0]|..] == rest + t;
      assert OccursAt(s, parts[0], i);
    }
  }

  /** s never contains the character c. */
  predicate Avoids(s: string, c: char)
  {
    forall j :: 0 <= j < |s| ==> s[j] != c
  }

  /** A rendered integer is made of digits and a minus sign only. */
  lemma IntToStringAvoids(i: int, c: char)
    requires c != '-' && !IsDigit(c)
    ensures Avoids(IntToString(i), c)
  {
  }

  /** Two strings that avoid c make one that does. */
  lemma AvoidsConcat(a: string, b: string, c: char)
    requires Avoids(a, c) && Avoids(b, c)
    ensures Avoids(a + b, c)
  {
    forall j | 0 <= j < |a + b| ensures (a + b)[j] != c {
      if j >= |a| {
        assert (a + b)[j] == b[j - |a|];
      }
    }
  }

  /** A zero-padded number is made of digits and a minus sign only. */
  lemma Pad2Avoids(n: int, c: char)
    requires c != '-' && !IsDigit(c)
    ensures Avoids(Pad2(n), c)
  {
    IntToStringAvoids(n, c);
    if 0 <= n < 10 {
      AvoidsConcat("0", IntToString(n), c);
    }
  }

  /** A joined list shows its parts in order. */
  lemma {:induction false} JoinInOrder(parts: seq<string>, sep: string)
    ensures InOrder(Join(parts, sep), parts)
  {
    var s := Join(parts, sep);
    if |parts| == 1 {
      assert OccursAt(s, parts[0], 0);
      assert InOrder(s[|parts[0]|..], parts[1..]);
    } else if |parts| > 1 {
      var rest := Join(parts[1..], sep);
      JoinInOrder(parts[1..], sep);
      InOrderPrepend(sep, rest, parts[1..]);
      assert s == parts[0] + (sep + rest);
      assert OccursAt(s, parts[0], 0);
      assert s[|parts[0]|..] == sep + rest;
    }
  }

  /** A joined non-empty list starts with its first part. */
  lemma JoinStartsWithFirst(parts: seq<string>, sep: string)
    requires |parts| > 0
    ensures StartsWith(Join(parts, sep), parts[0])
  {
    if |parts| > 1 {
      assert Join(parts, sep) == parts[0] + (sep + Join(parts[1..], sep));
    }
  }

  lemma OccursInSuffix(s: string, from: int, t: string, j: int)
    requires 0 <= from <= |s| && OccursAt(s[from..], t, j)
    ensures OccursAt(s, t, from + j)
  {
    assert s[from + j..from + j + |t|] == s[from..][j..j + |t|];
  }

  /** An occurrence inside an occurrence is an occurrence. */
  lemma OccursTrans(s: string, t: string, u: string, i: int, j: int)
    requires OccursAt(s, t, i) && OccursAt(t, u, j)
    ensures OccursAt(s, u, i + j)
  {
    forall k | 0 <= k < |u|
      ensures s[i + j..i + j + |u|][k] == u[k]
    {
      assert u[k] == t[j..j + |u|][k] == t[j + k];
      assert t[j + k] == s[i..i + |t|][j + k] == s[i + j + k];
    }
  }

  /** Each of the in-order parts occurs. */
  lemma {:induction false} InOrderOccurs(s: string, parts: seq<string>, k: nat)
    requires InOrder(s, parts) && k < |parts|
    ensures exists i :: OccursAt(s, parts[k], i)
  {
    var i :| OccursAt(s, parts[0], i) && InOrder(s[i + |parts[0]|..], parts[1..]);
    if k > 0 {
      var rest := s[i + |parts[0]|..];
      InOrderOccurs(rest, parts[1..], k - 1);
      var j :| OccursAt(rest, parts[k], j);
      OccursInSuffix(s, i + |parts[0]|, parts[k], j);
    }
  }

  // ---------------------------------------------------------------------------
  // The order Python's sorted() uses on strings
  // ---------------------------------------------------------------------------

  /** Lexicographic comparison by code point. */
  predicate StrLess(a: string, b: string)
  {
    if |a| == 0 then |b| > 0
    else if |b| == 0 then false
    else if a[0] != b[0] then a[0] < b[0]
    else StrLess(a[1..], b[1..])
  }

  lemma {:induction false} StrLessIrreflexive(a: string)
    ensures !StrLess(a, a)
  {
    if |a| > 0 { StrLessIrreflexive(a[1..]); }
  }

  lemma {:induction false} StrLessTransitive(a: string, b: string, c: string)
    requires StrLess(a, b) && StrLess(b, c)
    ensures StrLess(a, c)
  {
    if |a| > 0 && |b| > 0 && |c| > 0 && a[0] == b[0] && b[0] == c[0] {
      StrLessTransitive(a[1..], b[1..], c[1..]);
    }
  }

  lemma {:induction false} StrLessTotal(a: string, b: string)
    requires a != b
    ensures StrLess(a, b) || StrLess(b, a)
  {
    if |a| > 0 && |b| > 0 && a[0] == b[0] {
      assert a == [a[0]] + a[1..] && b == [b[0]] + b[1..];
      StrLessTotal(a[1..], b[1..]);
    }
  }

  lemma StrLessAsymmetric(a: string, b: string)
    requires StrLess(a, b)
    ensures !StrLess(b, a)
  {
    if StrLess(b, a) {
      StrLessTransitive(a, b, a);
      StrLessIrreflexive(a);
    }
  }

  /** The set of a list's elements. */
  function Elems<T>(s: seq<T>): set<T>
  {
    set x | x in s
  }

  ghost predicate StrictlySorted(s: seq<string>)
  {
    forall i, j :: 0 <= i < j < |s| ==> StrLess(s[i], s[j])
  }

  /** Inserts x into a strictly sorted list unless it is already there. */
  function InsertDistinct(x: string, s: seq<string>): (r: seq<string>)
    requires StrictlySorted(s)
    ensures StrictlySorted(r)
    ensures Elems(r) == Elems(s) + {x}
  {
    if |s| == 0 then [x]
    else if x == s[0] then s
    else if StrLess(x, s[0]) then
      assert forall j :: 0 < j < |s| ==> StrLess(x, s[j]) by {
        forall j | 0 < j < |s| ensures StrLess(x, s[j]) { StrLessTransitive(x, s[0], s[j]); }
      }
      [x] + s
    else
      StrLessTotal(x, s[0]);
      var t := InsertDistinct(x, s[1..]);
      assert forall k :: 0 <= k < |t| ==> StrLess(s[0], t[k]) by {
        forall k | 0 <= k < |t| ensures StrLess(s[0], t[k]) {
          assert t[k] in Elems(t);
          if t[k] != x {
            assert t[k] in Elems(s[1..]);
          }
        }
      }
      var r := [s[0]] + t;
      assert Elems(r) == {s[0]} + Elems(t);
      assert Elems(s) == {s[0]} + Elems(s[1..]);
      r
  }

  /** Python's sorted(set(names)): the distinct names in ascending order. */
  function SortedDistinct(names: seq<string>): (r: seq<string>)
    ensures StrictlySorted(r)
    ensures Elems(r) == Elems(names)
  {
    if |names| == 0 then []
    else
      var r := InsertDistinct(names[0], SortedDistinct(names[1..]));
      assert Elems(names) == Elems(names[1..]) + {names[0]};
      r
  }
}
