/**
 * The address validator used when the operator types a local IP
 * (is_valid_ipv4): split on '.', demand exactly four parts, each made of
 * decimal digits only and worth at most 255. Leading zeros are accepted.
 */
module Ipv4 {

  /** Index of the first occurrence of `c` in `s`. */
  function IndexOf(s: string, c: char): (i: nat)
    requires c in s
    ensures i < |s| && s[i] == c && c !in s[..i]
  {
    if s[0] == c then 0 else 1 + IndexOf(s[1..], c)
  }

  /**
   * Python's str.split(sep) with an explicit separator: every occurrence of
   * `sep` cuts, so "" gives [""] and "a..b" gives ["a", "", "b"].
   */
  function Split(s: string, sep: char): (parts: seq<string>)
    ensures |parts| >= 1
    decreases |s|
  {
    if sep !in s then [s]
    else
      var i := IndexOf(s, sep);
      [s[..i]] + Split(s[i + 1..], sep)
  }

  /** The inverse of Split: the parts glued back with `sep` between them. */
  function Join(parts: seq<string>, sep: char): string
    requires |parts| >= 1
  {
    if |parts| == 1 then parts[0] else parts[0] + [sep] + Join(parts[1..], sep)
  }

  predicate IsDigit(c: char) { '0' <= c <= '9' }

  /** str.isdigit() restricted to ASCII: non-empty and digits only. */
  predicate IsDigits(p: string)
  {
    |p| > 0 && forall k :: 0 <= k < |p| ==> IsDigit(p[k])
  }

  /** int(p) for a digit string, read most significant digit first. */
  function DecimalValue(p: string): (n: nat)
    requires forall k :: 0 <= k < |p| ==> IsDigit(p[k])
  {
    if p == [] then 0
    else
      assert IsDigit(p[|p| - 1]);
      DecimalValue(p[..|p| - 1]) * 10 + (p[|p| - 1] as int - '0' as int)
  }

  /** One dotted part the validator lets through. */
  predicate IsOctet(p: string)
  {
    IsDigits(p) && DecimalValue(p) <= 255
  }

  /** The acceptance condition of is_valid_ipv4. */
  predicate ValidIpv4(ip: string)
  {
    var parts := Split(ip, '.');
    |parts| == 4 && forall j :: 0 <= j < 4 ==> IsOctet(parts[j])
  }

  /**
   * is_valid_ipv4: the loop over the parts returns False at the first part
   * that is not all digits or is above 255, and True when all four pass.
   */
  method IsValidIpv4(ip: string) returns (ok: bool)
    ensures ok <==> ValidIpv4(ip)
  {
    var parts := Split(ip, '.');
    if |parts| != 4 {
      return false;
    }
    for i := 0 to |parts|
      invariant forall j :: 0 <= j < i ==> IsOctet(parts[j])
    {
      if !IsDigits(parts[i]) {
        return false;
      }
      var num := DecimalValue(parts[i]);
      if num < 0 || num > 255 {
        return false;
      }
    }
    return true;
  }

  /** Splitting and joining again gives back the string. */
  lemma {:induction false} JoinSplit(s: string, sep: char)
    ensures Join(Split(s, sep), sep) == s
    decreases |s|
  {
    if sep in s {
      var i := IndexOf(s, sep);
      JoinSplit(s[i + 1..], sep);
      assert s == s[..i] + [sep] + s[i + 1..];
    }
  }

  /** No part that Split produces contains the separator. */
  lemma {:induction false} SplitPartsFree(s: string, sep: char)
    ensures forall j :: 0 <= j < |Split(s, sep)| ==> sep !in Split(s, sep)[j]
    decreases |s|
  {
    if sep in s {
      var i := IndexOf(s, sep);
      SplitPartsFree(s[i + 1..], sep);
    }
  }

  /** The first occurrence is the one with no earlier occurrence before it. */
  lemma {:induction false} IndexOfAt(s: string, c: char, k: nat)
    requires k < |s| && s[k] == c && c !in s[..k]
    ensures IndexOf(s, c) == k
  {
    if k > 0 {
      assert s[0] == s[..k][0];
      assert s[1..][..k - 1] == s[..k][1..];
      IndexOfAt(s[1..], c, k - 1);
    }
  }

  /** Splitting a join of separator-free parts gives back the parts. */
  lemma {:induction false} SplitJoin(parts: seq<string>, sep: char)
    requires |parts| >= 1
    requires forall j :: 0 <= j < |parts| ==> sep !in parts[j]
    ensures Split(Join(parts, sep), sep) == parts
  {
    if |parts| > 1 {
      var s := Join(parts, sep);
      var a := parts[0];
      assert s == a + [sep] + Join(parts[1..], sep);
      assert s[|a|] == sep && sep in s;
      assert s[..|a|] == a;
      IndexOfAt(s, sep, |a|);
      assert s[|a| + 1..] == Join(parts[1..], sep);
      SplitJoin(parts[1..], sep);
    }
  }

  /**
   * Both directions of the validator's meaning: a valid address is the
   * dotted join of four octets, and every dotted join of four octets is
   * valid.
   */
  lemma ValidIsDottedQuad(ip: string)
    requires ValidIpv4(ip)
    ensures var parts := Split(ip, '.');
      |parts| == 4 && Join(parts, '.') == ip && forall j :: 0 <= j < 4 ==> IsOctet(parts[j])
  {
    JoinSplit(ip, '.');
  }

  lemma DottedQuadIsValid(a: string, b: string, c: string, d: string)
    requires IsOctet(a) && IsOctet(b) && IsOctet(c) && IsOctet(d)
    ensures ValidIpv4(a + "." + b + "." + c + "." + d)
  {
    DigitsHaveNoDot(a);
    DigitsHaveNoDot(b);
    DigitsHaveNoDot(c);
    DigitsHaveNoDot(d);
    SplitFour(a, b, c, d);
  }

  /** Four dot-free parts joined by dots split back into those four parts. */
  lemma SplitFour(a: string, b: string, c: string, d: string)
    requires '.' !in a && '.' !in b && '.' !in c && '.' !in d
    ensures Split(a + "." + b + "." + c + "." + d, '.') == [a, b, c, d]
  {
    SplitJoin([a, b, c, d], '.');
    JoinFour(a, b, c, d);
  }

  lemma DigitsHaveNoDot(p: string)
    requires IsDigits(p)
    ensures '.' !in p
  {
    forall k | 0 <= k < |p|
      ensures p[k] != '.'
    {
      assert IsDigit(p[k]);
    }
  }

  /** The value of a three-digit string. */
  lemma ThreeDigits(p: string)
    requires |p| == 3 && IsDigits(p)
    ensures DecimalValue(p) == 100 * (p[0] as int - '0' as int) + 10 * (p[1] as int - '0' as int) + (p[2] as int - '0' as int)
  {
    var p2, p1 := p[..2], p[..1];
    assert p2[..1] == p1 && p1[..0] == [];
    assert DecimalValue(p1) == p[0] as int - '0' as int;
    assert DecimalValue(p2) == DecimalValue(p1) * 10 + (p[1] as int - '0' as int);
  }

  /** Joining four parts puts a dot between consecutive parts. */
  lemma JoinFour(a: string, b: string, c: string, d: string)
    ensures Join([a, b, c, d], '.') == a + "." + b + "." + c + "." + d
  {
    assert [c, d][1..] == [d];
    assert Join([c, d], '.') == c + "." + d;
    assert [b, c, d][1..] == [c, d];
    assert Join([b, c, d], '.') == b + "." + (c + "." + d);
    assert [a, b, c, d][1..] == [b, c, d];
    assert Join([a, b, c, d], '.') == a + "." + (b + "." + (c + "." + d));
  }

  /** The empty string and a three-part address are rejected. */
  lemma RejectsShortAddresses()
    ensures !ValidIpv4("") && !ValidIpv4("1.2.3")
  {
    assert Split("", '.') == [""];
    SplitJoin(["1", "2", "3"], '.');
    JoinThree();
  }

  lemma JoinThree()
    ensures Join(["1", "2", "3"], '.') == "1.2.3"
  {
    assert ["1", "2", "3"][1..] == ["2", "3"];
    assert ["2", "3"][1..] == ["3"];
  }

  /** A part above 255 is rejected. */
  lemma RejectsOutOfRangePart()
    ensures !ValidIpv4("256.0.0.1")
  {
    DigitsHaveNoDot("256");
    DigitsHaveNoDot("0");
    DigitsHaveNoDot("1");
    SplitFour("256", "0", "0", "1");
    SpellOutOfRange();
    ThreeDigits("256");
    assert !IsOctet("256");
    assert Split("256.0.0.1", '.')[0] == "256";
  }

  lemma SpellOutOfRange()
    ensures "256" + "." + "0" + "." + "0" + "." + "1" == "256.0.0.1"
  {
  }

  /** The controller's default address is accepted. */
  lemma AcceptsDefaultAddress()
    ensures ValidIpv4("192.168.137.1")
  {
    ThreeDigits("192");
    ThreeDigits("168");
    ThreeDigits("137");
    DottedQuadIsValid("192", "168", "137", "1");
    SpellDefault();
  }

  lemma SpellDefault()
    ensures "192" + "." + "168" + "." + "137" + "." + "1" == "192.168.137.1"
  {
  }

  /** Leading zeros are accepted. */
  lemma AcceptsLeadingZeros()
    ensures ValidIpv4("010.0.0.001")
  {
    ThreeDigits("010");
    ThreeDigits("001");
    DottedQuadIsValid("010", "0", "0", "001");
    SpellLeadingZeros();
  }

  lemma SpellLeadingZeros()
    ensures "010" + "." + "0" + "." + "0" + "." + "001" == "010.0.0.001"
  {
  }
}
