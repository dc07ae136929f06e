/** The two allocators: a counter value printed as a WireGuard address, and a counter value folded into a port. */
module Addresses {
  import opened Store

  // ---- decimal numerals ----

  function Digit(d: nat): char
    requires d < 10
  {
    ('0' as int + d) as char
  }

  predicate IsDigit(c: char) {
    '0' <= c <= '9'
  }

  function Numeral(n: nat): string {
    if n < 10 then [Digit(n)] else Numeral(n / 10) + [Digit(n % 10)]
  }

  function ParseNumeral(s: string): Option<nat> {
    if s == [] || !IsDigit(s[|s| - 1]) then None
    else
      var last := s[|s| - 1] as int - '0' as int;
      if |s| == 1 then Some(last)
      else
        match ParseNumeral(s[..|s| - 1])
        case None => None
        case Some(n) => Some(10 * n + last)
  }

  lemma {:induction false} NumeralRoundTrip(n: nat)
    ensures ParseNumeral(Numeral(n)) == Some(n)
    ensures forall i | 0 <= i < |Numeral(n)| :: IsDigit(Numeral(n)[i])
    ensures Numeral(n) != [] && (n > 0 ==> Numeral(n)[0] != '0')
  {
    if n < 10 {
    } else {
      NumeralRoundTrip(n / 10);
      var s := Numeral(n);
      assert s[..|s| - 1] == Numeral(n / 10);
    }
  }

  /** A counter value: INCR of an absent key answers 1. */
  type Index = n: int | n > 0 witness 1

  // ---- AllocWGIP ----

  const PER_OCTET := 254

  function ThirdOctet(n: Index): nat {
    (n - 1) / PER_OCTET + 1
  }

  function FourthOctet(n: Index): nat {
    (n - 1) % PER_OCTET + 1
  }

  const PREFIX := "10.99."

  function AddressText(third: nat, fourth: nat): string {
    PREFIX + Numeral(third) + "." + Numeral(fourth)
  }

  /** The address AllocWGIP prints for the counter value n. */
  function WgAddress(n: Index): string {
    AddressText(ThirdOctet(n), FourthOctet(n))
  }

  function FindDot(s: string): nat
    ensures FindDot(s) <= |s|
  {
    if s == [] || s[0] == '.' then 0 else 1 + FindDot(s[1..])
  }

  /** Reads the counter value back from an address. */
  function ParseAddress(s: string): Option<nat> {
    if !(PREFIX <= s) then None
    else
      var octets := s[|PREFIX|..];
      var dot := FindDot(octets);
      if dot == |octets| then None
      else
        match (ParseNumeral(octets[..dot]), ParseNumeral(octets[dot + 1..]))
        case (Some(third), Some(fourth)) =>
          if third > 0 && 1 <= fourth <= PER_OCTET then Some((third - 1) * PER_OCTET + fourth) else None
        case _ => None
  }

  lemma {:induction false} FindDotAfterDigits(digits: string, rest: string)
    requires forall i | 0 <= i < |digits| :: IsDigit(digits[i])
    ensures FindDot(digits + "." + rest) == |digits|
  {
    var s := digits + "." + rest;
    if digits == [] {
    } else {
      assert s[0] == digits[0];
      assert s[1..] == digits[1..] + "." + rest;
      FindDotAfterDigits(digits[1..], rest);
    }
  }

  lemma SplitAtDot(third: string, fourth: string)
    requires forall i | 0 <= i < |third| :: IsDigit(third[i])
    ensures var octets := (PREFIX + third + "." + fourth)[|PREFIX|..];
      && FindDot(octets) == |third| < |octets|
      && octets[..|third|] == third && octets[|third| + 1..] == fourth
  {
    assert (PREFIX + third + "." + fourth)[|PREFIX|..] == third + "." + fourth;
    FindDotAfterDigits(third, fourth);
  }

  /** Parsing a printed address recovers the counter, for every counter value. */
  lemma AddressRoundTrip(n: Index)
    ensures ParseAddress(WgAddress(n)) == Some(n)
  {
    NumeralRoundTrip(ThirdOctet(n));
    NumeralRoundTrip(FourthOctet(n));
    SplitAtDot(Numeral(ThirdOctet(n)), Numeral(FourthOctet(n)));
    assert PREFIX <= WgAddress(n);
  }

  /** So two counter values never print the same address. */
  lemma AddressInjective(m: Index, n: Index)
    ensures WgAddress(m) == WgAddress(n) <==> m == n
  {
    AddressRoundTrip(m);
    AddressRoundTrip(n);
  }

  const CONTROL_PLANE_BLOCK := "10.99.0."

  /** No counter value prints an address of the control plane's own block. */
  lemma AddressOutsideControlPlaneBlock(n: Index)
    ensures !(CONTROL_PLANE_BLOCK <= WgAddress(n))
  {
    NumeralRoundTrip(ThirdOctet(n));
    assert WgAddress(n)[6] == Numeral(ThirdOctet(n))[0];
    assert CONTROL_PLANE_BLOCK[6] == '0';
  }

  /** The documented pool 10.99.1.1 to 10.99.254.254 is exactly the counter values 1 to 64516, one address each. */
  lemma DocumentedPool(third: nat, fourth: nat)
    requires 1 <= third <= 254 && 1 <= fourth <= 254
    ensures exists n: Index :: n <= 64516 && ThirdOctet(n) == third && FourthOctet(n) == fourth
    ensures forall m: Index, n: Index :: ThirdOctet(m) == ThirdOctet(n) && FourthOctet(m) == FourthOctet(n) ==> m == n
  {
    var n: Index := (third - 1) * PER_OCTET + fourth;
    assert ThirdOctet(n) == third && FourthOctet(n) == fourth;
  }

  /** Addresses are handed out from 10.99.1.1 on, one after the other. */
  lemma AddressesAscend(n: Index)
    ensures WgAddress(1) == "10.99.1.1"
    ensures FourthOctet(n) < 254 ==> ThirdOctet(n + 1) == ThirdOctet(n) && FourthOctet(n + 1) == FourthOctet(n) + 1
    ensures FourthOctet(n) == 254 ==> ThirdOctet(n + 1) == ThirdOctet(n) + 1 && FourthOctet(n + 1) == 1
  {
    assert Numeral(1) == "1" && PREFIX == "10.99.";
    if FourthOctet(n) < 254 {
      assert n == PER_OCTET * ((n - 1) / PER_OCTET) + FourthOctet(n);
    }
  }

  /** The counter stays in that pool exactly up to 64516, and prints no IPv4 address exactly from 64771 on. */
  lemma AddressLimits(n: Index)
    ensures 1 <= FourthOctet(n) <= 254
    ensures ThirdOctet(n) <= 254 <==> n <= 64516
    ensures ThirdOctet(n) <= 255 <==> n < 64771
  {
  }

  /** An address from 10.99.1.1 to 10.99.254.254. */
  ghost predicate InPool(address: string) {
    exists third: nat, fourth: nat :: 1 <= third <= 254 && 1 <= fourth <= 254 && address == AddressText(third, fourth)
  }

  lemma InPoolExactly(n: Index)
    ensures InPool(WgAddress(n)) <==> n <= 64516
  {
    AddressLimits(n);
    if InPool(WgAddress(n)) {
      var third: nat, fourth: nat :|
        1 <= third <= 254 && 1 <= fourth <= 254 && WgAddress(n) == AddressText(third, fourth);
      var m: Index := (third - 1) * PER_OCTET + fourth;
      assert ThirdOctet(m) == third && FourthOctet(m) == fourth;
      AddressInjective(m, n);
    }
  }

  // ---- AllocPort ----

  /** The port AllocPort returns for the counter value n. */
  function Port(n: Index): nat {
    n % 10000 + 40000
  }

  /** Ports are handed out from 40001 on, one after the other, and 40000 follows 49999. */
  lemma PortsAscend(n: Index)
    ensures Port(1) == 40001
    ensures Port(n + 1) == if Port(n) == 49999 then 40000 else Port(n) + 1
  {
  }

  /** The port of a counter value is new exactly for the first 10000 of them. */
  lemma PortIsNewExactly(n: Index)
    ensures (forall m: Index | m < n :: Port(m) != Port(n)) <==> n <= 10000
  {
    if n > 10000 {
      assert Port(n - 10000) == Port(n);
    }
  }

  /** The port is not unique for good: every port ever handed out comes round again. */
  lemma PortsRecur(n: Index)
    ensures exists m: Index :: m > n && Port(m) == Port(n)
  {
    assert Port(n + 10000) == Port(n);
  }
}
