/**
 * The format checks of src/utils/validation.ts: the MAC-address pattern
 * `^([0-9A-Fa-f]{2}[:-]){5}([0-9A-Fa-f]{2})$`, the country-code pattern
 * `^[A-Z]{2}$` and the whole-day difference between two instants.  The
 * patterns are matched structurally, group by group, and proved equal to a
 * position-by-position description of the accepted texts.
 */
module Validation {
  import opened Common

  predicate IsHex(c: char) {
    ('0' <= c <= '9') || ('A' <= c <= 'F') || ('a' <= c <= 'f')
  }

  predicate IsSeparator(c: char) {
    c == ':' || c == '-'
  }

  /** `([0-9A-Fa-f]{2}[:-]){n}([0-9A-Fa-f]{2})` against the whole text. */
  function MatchGroups(s: string, n: nat): bool
    decreases n
  {
    if n == 0 then |s| == 2 && IsHex(s[0]) && IsHex(s[1])
    else |s| >= 3 && IsHex(s[0]) && IsHex(s[1]) && IsSeparator(s[2]) && MatchGroups(s[3..], n - 1)
  }

  /** Position by position: a separator at every third place, a hex digit everywhere else. */
  predicate MacShaped(s: string) {
    forall i :: 0 <= i < |s| ==> if i % 3 == 2 then IsSeparator(s[i]) else IsHex(s[i])
  }

  lemma {:induction false} MatchGroupsPositional(s: string, n: nat)
    ensures MatchGroups(s, n) <==> |s| == 3 * n + 2 && MacShaped(s)
    decreases n
  {
    if n > 0 && |s| >= 3 {
      MatchGroupsPositional(s[3..], n - 1);
      if MacShaped(s) {
        forall i | 0 <= i < |s[3..]|
          ensures if i % 3 == 2 then IsSeparator(s[3..][i]) else IsHex(s[3..][i])
        {
          assert s[3..][i] == s[i + 3] && (i + 3) % 3 == i % 3;
        }
      }
      if IsHex(s[0]) && IsHex(s[1]) && IsSeparator(s[2]) && MacShaped(s[3..]) {
        forall i | 0 <= i < |s|
          ensures if i % 3 == 2 then IsSeparator(s[i]) else IsHex(s[i])
        {
          if i >= 3 {
            assert s[i] == s[3..][i - 3] && (i - 3) % 3 == i % 3;
          }
        }
      }
    }
  }

  /** isValidMacAddress: the pattern accepts exactly the 17-character texts with a ':' or '-' at
      positions 2, 5, 8, 11 and 14 and a hex digit of either case everywhere else. */
  function IsValidMacAddress(mac: string): (r: bool)
    ensures r <==> |mac| == 17 && MacShaped(mac)
  {
    MatchGroupsPositional(mac, 5);
    MatchGroups(mac, 5)
  }

  /** Upper-casing never changes whether a text is a valid MAC address. */
  lemma MacCaseInsensitive(mac: string)
    ensures IsValidMacAddress(Upper(mac)) == IsValidMacAddress(mac)
  {
    var u := Upper(mac);
    if MacShaped(mac) {
      forall i | 0 <= i < |u|
        ensures if i % 3 == 2 then IsSeparator(u[i]) else IsHex(u[i])
      {
        assert u[i] == UpperChar(mac[i]);
      }
    }
    if MacShaped(u) {
      forall i | 0 <= i < |mac|
        ensures if i % 3 == 2 then IsSeparator(mac[i]) else IsHex(mac[i])
      {
        assert u[i] == UpperChar(mac[i]);
      }
    }
  }

  /** The separators are chosen independently: a mixed ':' and '-' address is accepted. */
  lemma MixedSeparatorsAccepted()
    ensures IsValidMacAddress("00:1a:2B-3c:4D-5e")
  {
    var s := "00:1a:2B-3c:4D-5e";
    assert s[3..][3..][3..][3..][3..] == "5e";
  }

  /** Too-short and unseparated addresses are rejected. */
  lemma MalformedMacsRejected()
    ensures !IsValidMacAddress("00:1A:2B:3C:4D")
    ensures !IsValidMacAddress("001A2B3C4D5E")
  {
    assert |"00:1A:2B:3C:4D"| == 14;
    assert |"001A2B3C4D5E"| == 12;
  }

  predicate IsUpperLetter(c: char) {
    'A' <= c <= 'Z'
  }

  /** `[A-Z]{n}` against the whole text. */
  function MatchLetters(s: string, n: nat): (r: bool)
    ensures r <==> |s| == n && forall i :: 0 <= i < |s| ==> IsUpperLetter(s[i])
    decreases n
  {
    if n == 0 then |s| == 0
    else
      |s| >= 1 && IsUpperLetter(s[0]) && (assert forall i :: 1 <= i < |s| ==> s[i] == s[1..][i - 1]; MatchLetters(s[1..], n - 1))
  }

  /** isValidCountryCode: exactly two upper-case ASCII letters. */
  function IsValidCountryCode(code: string): (r: bool)
    ensures r <==> |code| == 2 && IsUpperLetter(code[0]) && IsUpperLetter(code[1])
  {
    MatchLetters(code, 2)
  }

  /** A valid code is its own upper-case form, and lower-casing it makes it invalid. */
  lemma CountryCodeCase(code: string)
    requires IsValidCountryCode(code)
    ensures Upper(code) == code
    ensures !IsValidCountryCode(Lower(code))
  {
    assert Lower(code)[0] == LowerChar(code[0]);
  }

  /** calculateDaysBetween: Math.ceil of the millisecond difference over a day. */
  function DaysBetween(start: int, end: int): (d: int)
    ensures (d - 1) * DayMs < end - start <= d * DayMs
  {
    CeilDiv(end - start, DayMs)
  }

  /** Whole days come out exactly; any part of a further day counts as one more. */
  lemma DaysBetweenWholeDays(start: int, n: int, extra: int)
    requires 0 < extra < DayMs
    ensures DaysBetween(start, start + n * DayMs) == n
    ensures DaysBetween(start, start + n * DayMs + extra) == n + 1
  {
    var d := DaysBetween(start, start + n * DayMs);
    if d < n { MulMonotone(d, n - 1, DayMs); }
    if d > n { MulMonotone(n, d - 1, DayMs); }
    var e := DaysBetween(start, start + n * DayMs + extra);
    if e < n + 1 { MulMonotone(e, n, DayMs); }
    if e > n + 1 { MulMonotone(n + 1, e - 1, DayMs); }
  }

  /** A later end never gives fewer days. */
  lemma DaysBetweenMonotone(start: int, e1: int, e2: int)
    requires e1 <= e2
    ensures DaysBetween(start, e1) <= DaysBetween(start, e2)
  {
    var d1 := DaysBetween(start, e1);
    var d2 := DaysBetween(start, e2);
    if d1 > d2 { MulMonotone(d2, d1 - 1, DayMs); }
  }
}
