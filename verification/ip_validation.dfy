/**
 * The IPv4 syntax check of Service A's request schema (`IPRequest.validate_ip`):
 * a full match of `(\d{1,3}\.){3}\d{1,3}`, then a left-to-right check that
 * every octet's integer value lies in 0..255. On acceptance the input is
 * returned unchanged.
 */
module IpValidation {
  import opened Wrappers

  /** `\d`, read as an ASCII decimal digit. */
  predicate IsDigit(c: char) {
    '0' <= c <= '9'
  }

  predicate AllDigits(s: string) {
    forall i :: 0 <= i < |s| ==> IsDigit(s[i])
  }

  /** `\d{1,3}`: one to three digits. */
  predicate IsDigitGroup(g: string) {
    1 <= |g| <= 3 && AllDigits(g)
  }

  /** The length of the run of digits that starts s. */
  function DigitRun(s: string): (n: nat)
    ensures n <= |s|
    ensures n < |s| ==> !IsDigit(s[n])
  {
    if |s| > 0 && IsDigit(s[0]) then 1 + DigitRun(s[1..]) else 0
  }

  /**
   * Whether all of s matches `(\d{1,3}\.){dots}\d{1,3}`. A digit is never a
   * dot, so every `\d{1,3}` that the regex engine can make fit must consume
   * the whole run of digits in front of it: the match never backtracks into
   * a shorter group.
   */
  predicate MatchesGroups(s: string, dots: nat)
    decreases dots
  {
    var n := DigitRun(s);
    if dots == 0 then
      1 <= n <= 3 && n == |s|
    else
      1 <= n <= 3 && n < |s| && s[n] == '.' && MatchesGroups(s[n + 1..], dots - 1)
  }

  /** `re.match(r'^(\d{1,3}\.){3}\d{1,3}$', v)`, with `$` as the end of the string. */
  predicate MatchesIpPattern(v: string) {
    MatchesGroups(v, 3)
  }

  /** The index of the first '.' in s, or |s| when there is none. */
  function FirstDot(s: string): (i: nat)
    ensures i <= |s|
    ensures i < |s| ==> s[i] == '.'
  {
    if |s| == 0 || s[0] == '.' then 0 else 1 + FirstDot(s[1..])
  }

  /** Python's `s.split('.')`: the pieces between the dots, at least one. */
  function Split(s: string): (parts: seq<string>)
    ensures |parts| >= 1
    decreases |s|
  {
    var i := FirstDot(s);
    if i == |s| then [s] else [s[..i]] + Split(s[i + 1..])
  }

  /** `'.'.join(parts)`. */
  function JoinDots(parts: seq<string>): (r: string)
    requires |parts| >= 1
  {
    if |parts| == 1 then parts[0] else parts[0] + "." + JoinDots(parts[1..])
  }

  /** Splitting loses nothing: joining the pieces back gives the string, and no piece holds a dot. */
  lemma {:induction false} SplitJoin(s: string)
    ensures JoinDots(Split(s)) == s
    ensures forall k :: 0 <= k < |Split(s)| ==> NoDot(Split(s)[k])
    decreases |s|
  {
    var i := FirstDot(s);
    FirstDotNoDot(s);
    if i < |s| {
      SplitJoin(s[i + 1..]);
      assert s == s[..i] + "." + s[i + 1..];
      var parts := Split(s);
      assert parts == [s[..i]] + Split(s[i + 1..]);
      forall j | 0 <= j < |parts[0]| ensures parts[0][j] != '.' {
        assert parts[0][j] == s[j];
      }
    } else {
      assert Split(s) == [s];
    }
  }

  function DigitValue(c: char): (r: nat)
    requires IsDigit(c)
  {
    c as int - '0' as int
  }

  /** `int(g)` for a string of ASCII digits: its decimal value. */
  function DecimalValue(g: string): (r: nat)
    requires AllDigits(g)
    decreases |g|
  {
    if |g| == 0 then 0 else 10 * DecimalValue(g[..|g| - 1]) + DigitValue(g[|g| - 1])
  }

  /** A leading zero does not change an octet's value: "010" is read as 10. */
  lemma {:induction false} LeadingZeroKeepsValue(g: string)
    requires AllDigits(g)
    ensures AllDigits("0" + g)
    ensures DecimalValue("0" + g) == DecimalValue(g)
    decreases |g|
  {
    var z := "0" + g;
    assert AllDigits(z) by {
      forall i | 0 <= i < |z| ensures IsDigit(z[i]) {
        if i > 0 { assert z[i] == g[i - 1]; }
      }
    }
    if |g| > 0 {
      var front := g[..|g| - 1];
      assert z[..|z| - 1] == "0" + front;
      assert z[|z| - 1] == g[|g| - 1];
      LeadingZeroKeepsValue(front);
    }
  }


  predicate NoDot(g: string) {
    forall j :: 0 <= j < |g| ==> g[j] != '.'
  }

  /** Every piece is `\d{1,3}`. */
  predicate AllDigitGroups(parts: seq<string>) {
    forall k :: 0 <= k < |parts| ==> IsDigitGroup(parts[k])
  }

  /** Four dot-separated groups of one to three digits: what the pattern admits. */
  predicate FourDigitGroups(v: string) {
    |Split(v)| == 4 && AllDigitGroups(Split(v))
  }

  /** Every octet's integer value is at most 255. */
  predicate OctetsInRange(octets: seq<string>)
    requires AllDigitGroups(octets)
  {
    forall k :: 0 <= k < |octets| ==> DecimalValue(octets[k]) <= 255
  }

  /** Dotted-decimal IPv4 syntax as in RFC 791 addresses, leading zeros tolerated. */
  predicate IsDottedQuad(v: string) {
    FourDigitGroups(v) && OctetsInRange(Split(v))
  }

  /** When the first `n` characters of s are digits and the next is not, the run has length n. */
  lemma {:induction false} DigitRunIs(s: string, n: nat)
    requires n <= |s|
    requires forall i :: 0 <= i < n ==> IsDigit(s[i])
    requires n < |s| ==> !IsDigit(s[n])
    ensures DigitRun(s) == n
    decreases n
  {
    if n > 0 {
      DigitRunIs(s[1..], n - 1);
    }
  }

  /** When the first `n` characters of s are not dots and the next is, the first dot is at n. */
  lemma {:induction false} FirstDotIs(s: string, n: nat)
    requires n <= |s|
    requires forall i :: 0 <= i < n ==> s[i] != '.'
    requires n < |s| ==> s[n] == '.'
    ensures FirstDot(s) == n
    decreases n
  {
    if n > 0 {
      FirstDotIs(s[1..], n - 1);
    }
  }

  /** A piece without a dot splits into itself. */
  lemma SplitSingle(p: string)
    requires NoDot(p)
    ensures Split(p) == [p]
  {
    FirstDotIs(p, |p|);
  }

  /** A piece without a dot, a dot, then the rest: the piece comes first. */
  lemma SplitCons(p: string, rest: string)
    requires NoDot(p)
    ensures Split(p + "." + rest) == [p] + Split(rest)
  {
    var s := p + "." + rest;
    forall j | 0 <= j < |p| ensures s[j] != '.' {
      assert s[j] == p[j];
    }
    assert s[|p|] == '.';
    FirstDotIs(s, |p|);
    assert s[..|p|] == p;
    assert s[|p| + 1..] == rest;
    SplitAt(s, |p|);
  }

  /** Joining pieces without dots and splitting again gives the pieces back. */
  lemma {:induction false} JoinSplit(parts: seq<string>)
    requires |parts| >= 1
    requires forall k :: 0 <= k < |parts| ==> NoDot(parts[k])
    ensures Split(JoinDots(parts)) == parts
    decreases |parts|
  {
    var p := parts[0];
    if |parts| == 1 {
      SplitSingle(p);
    } else {
      var tail := parts[1..];
      assert JoinDots(parts) == p + "." + JoinDots(tail);
      SplitCons(p, JoinDots(tail));
      JoinSplit(tail);
      assert [p] + tail == parts;
    }
  }

  /** Putting a digit group in front of digit groups gives digit groups. */
  lemma ConsDigitGroups(g: string, rest: seq<string>)
    requires IsDigitGroup(g) && AllDigitGroups(rest)
    ensures AllDigitGroups([g] + rest)
  {
    var parts := [g] + rest;
    forall k | 0 <= k < |parts| ensures IsDigitGroup(parts[k]) {
      if k > 0 { assert parts[k] == rest[k - 1]; }
    }
  }

  /** The pieces of a string with its first dot at `i`. */
  lemma SplitAt(s: string, i: nat)
    requires i < |s| && FirstDot(s) == i
    ensures Split(s) == [s[..i]] + Split(s[i + 1..])
  {
  }

  /** The characters in front of DigitRun(s) are digits. */
  lemma {:induction false} DigitRunDigits(s: string)
    ensures forall j :: 0 <= j < DigitRun(s) ==> IsDigit(s[j])
    ensures AllDigits(s[..DigitRun(s)])
    decreases |s|
  {
    var n := DigitRun(s);
    if n > 0 {
      DigitRunDigits(s[1..]);
      forall j | 0 <= j < n ensures IsDigit(s[j]) {
        if j > 0 { assert s[j] == s[1..][j - 1]; }
      }
    }
    forall j | 0 <= j < n ensures IsDigit(s[..n][j]) {
      assert s[..n][j] == s[j];
    }
  }

  /** The characters in front of FirstDot(s) are not dots. */
  lemma {:induction false} FirstDotNoDot(s: string)
    ensures forall j :: 0 <= j < FirstDot(s) ==> s[j] != '.'
    decreases |s|
  {
    var i := FirstDot(s);
    if i > 0 {
      FirstDotNoDot(s[1..]);
      forall j | 0 <= j < i ensures s[j] != '.' {
        if j > 0 { assert s[j] == s[1..][j - 1]; }
      }
    }
  }

  /** A string the pattern matches splits into `dots + 1` digit groups. */
  lemma {:induction false} MatchesGroupsSplit(s: string, dots: nat)
    requires MatchesGroups(s, dots)
    ensures |Split(s)| == dots + 1 && AllDigitGroups(Split(s))
    decreases dots
  {
    var n := DigitRun(s);
    DigitRunDigits(s);
    FirstDotIs(s, n);
    if dots == 0 {
      assert s[..n] == s;
      assert Split(s) == [s];
    } else {
      var tail := s[n + 1..];
      assert MatchesGroups(tail, dots - 1);
      MatchesGroupsSplit(tail, dots - 1);
      SplitAt(s, n);
      ConsDigitGroups(s[..n], Split(tail));
    }
  }

  /** A string that splits into `dots + 1` digit groups matches the pattern. */
  lemma SplitMatchesGroups(s: string, dots: nat)
    requires |Split(s)| == dots + 1 && AllDigitGroups(Split(s))
    ensures MatchesGroups(s, dots)
  {
    SplitJoin(s);
    JoinMatchesGroups(Split(s), dots);
  }

  /** `dots + 1` digit groups joined by dots match the pattern. */
  lemma {:induction false} JoinMatchesGroups(parts: seq<string>, dots: nat)
    requires |parts| == dots + 1 && AllDigitGroups(parts)
    ensures MatchesGroups(JoinDots(parts), dots)
    decreases dots
  {
    var p, tail := parts[0], parts[1..];
    UnconsDigitGroups(parts);
    if dots == 0 {
      assert JoinDots(parts) == p;
      SingleGroupMatches(p);
    } else {
      JoinMatchesGroups(tail, dots - 1);
      GroupThenGroups(p, JoinDots(tail), dots);
      assert JoinDots(parts) == p + "." + JoinDots(tail);
    }
  }

  /** A digit group, a dot, then a match with one dot fewer: a match. */
  lemma GroupThenGroups(p: string, rest: string, dots: nat)
    requires dots > 0 && IsDigitGroup(p) && MatchesGroups(rest, dots - 1)
    ensures MatchesGroups(p + "." + rest, dots)
  {
    GroupThenDot(p, rest);
    MatchesGroupsStep(p + "." + rest, |p|, dots);
  }

  /** A lone digit group matches the pattern without dots. */
  lemma SingleGroupMatches(p: string)
    requires IsDigitGroup(p)
    ensures MatchesGroups(p, 0)
  {
    DigitRunIs(p, |p|);
  }

  /** The first piece of digit groups is one, and so are the others. */
  lemma UnconsDigitGroups(parts: seq<string>)
    requires |parts| >= 1 && AllDigitGroups(parts)
    ensures IsDigitGroup(parts[0]) && AllDigitGroups(parts[1..])
  {
    var tail := parts[1..];
    forall k | 0 <= k < |tail| ensures IsDigitGroup(tail[k]) {
      assert tail[k] == parts[k + 1];
    }
  }

  /** A digit group followed by a dot: its digits are the run, the dot ends it. */
  lemma GroupThenDot(p: string, rest: string)
    requires IsDigitGroup(p)
    ensures DigitRun(p + "." + rest) == |p|
    ensures (p + "." + rest)[|p|] == '.'
    ensures (p + "." + rest)[|p| + 1..] == rest
  {
    var s := p + "." + rest;
    forall j | 0 <= j < |p| ensures IsDigit(s[j]) {
      assert s[j] == p[j];
    }
    assert s[|p|] == '.';
    DigitRunIs(s, |p|);
  }

  /** One step of the pattern: a digit group, a dot, then the remaining groups. */
  lemma MatchesGroupsStep(s: string, n: nat, dots: nat)
    requires dots > 0 && DigitRun(s) == n
    requires 1 <= n <= 3 && n < |s| && s[n] == '.'
    requires MatchesGroups(s[n + 1..], dots - 1)
    ensures MatchesGroups(s, dots)
  {
  }

  /** The regex and the split-based description admit the same strings. */
  lemma MatchesIpPatternIff(v: string)
    ensures MatchesIpPattern(v) <==> FourDigitGroups(v)
  {
    if MatchesIpPattern(v) {
      MatchesGroupsSplit(v, 3);
    }
    if FourDigitGroups(v) {
      SplitMatchesGroups(v, 3);
    }
  }

  datatype IpError =
    | InvalidFormat                    // "Invalid IP address format. Must be in format: X.X.X.X"
    | OctetOutOfRange(octet: string)   // "Invalid IP address. Octet {octet} must be between 0 and 255"

  /** The `for octet in octets` check: the index of the first octet, left to right, outside 0..255, or |octets|. */
  function FirstBadIndex(octets: seq<string>): (k: nat)
    requires forall i :: 0 <= i < |octets| ==> AllDigits(octets[i])
    ensures k <= |octets|
    ensures forall j :: 0 <= j < k ==> DecimalValue(octets[j]) <= 255
    ensures k < |octets| ==> DecimalValue(octets[k]) > 255
  {
    if octets == [] then 0
    else if !(0 <= DecimalValue(octets[0]) <= 255) then 0
    else
      var k := 1 + FirstBadIndex(octets[1..]);
      assert forall j :: 1 <= j < k ==> octets[j] == octets[1..][j - 1];
      k
  }

  /** `IPRequest.validate_ip`: the value unchanged when it is a dotted quad, otherwise the first error it raises. */
  function ValidateIp(v: string): (r: Result<string, IpError>)
    ensures r.Success? <==> IsDottedQuad(v)
    ensures r.Success? ==> r.value == v
    ensures r == Failure(InvalidFormat) <==> !FourDigitGroups(v)
    ensures r.Failure? && r.error.OctetOutOfRange? ==>
              FourDigitGroups(v) &&
              exists k :: 0 <= k < 4 && Split(v)[k] == r.error.octet && DecimalValue(Split(v)[k]) > 255 &&
                          forall j :: 0 <= j < k ==> DecimalValue(Split(v)[j]) <= 255
  {
    MatchesIpPatternIff(v);
    if !MatchesIpPattern(v) then Failure(InvalidFormat)
    else
      var octets := Split(v);
      var k := FirstBadIndex(octets);
      if k < |octets| then
        assert DecimalValue(octets[k]) > 255 && forall j :: 0 <= j < k ==> DecimalValue(octets[j]) <= 255;
        Failure(OctetOutOfRange(octets[k]))
      else
        Success(v)
  }

  /** Any four digit groups of value at most 255, joined with dots, are accepted and returned unchanged. */
  lemma QuadAccepted(a: string, b: string, c: string, d: string)
    requires IsDigitGroup(a) && IsDigitGroup(b) && IsDigitGroup(c) && IsDigitGroup(d)
    requires DecimalValue(a) <= 255 && DecimalValue(b) <= 255 && DecimalValue(c) <= 255 && DecimalValue(d) <= 255
    ensures ValidateIp(JoinDots([a, b, c, d])) == Success(JoinDots([a, b, c, d]))
  {
    var parts := [a, b, c, d];
    DigitsNoDot(a);
    DigitsNoDot(b);
    DigitsNoDot(c);
    DigitsNoDot(d);
    JoinSplit(parts);
    assert AllDigitGroups(parts);
    assert OctetsInRange(parts);
  }

  /** A digit is never a dot. */
  lemma DigitsNoDot(g: string)
    requires AllDigits(g)
    ensures NoDot(g)
  {
    forall j | 0 <= j < |g| ensures g[j] != '.' {
      assert IsDigit(g[j]);
    }
  }

  /** The octets of "010.000.0.1" and their values. */
  lemma LeadingZeroOctets()
    ensures IsDigitGroup("010") && IsDigitGroup("000") && IsDigitGroup("0") && IsDigitGroup("1")
    ensures DecimalValue("010") == 10 && DecimalValue("000") == 0
    ensures DecimalValue("0") == 0 && DecimalValue("1") == 1
  {
    assert DecimalValue("1") == 1;
    assert DecimalValue("0") == 0;
    assert "10"[..1] == "1";
    assert DecimalValue("10") == 10;
    LeadingZeroKeepsValue("10");
    LeadingZeroKeepsValue("0");
    LeadingZeroKeepsValue("00");
    assert "0" + "10" == "010" && "0" + "0" == "00" && "0" + "00" == "000";
  }

  /** "010.000.0.1" is its four octets joined by dots. */
  lemma LeadingZeroJoin()
    ensures JoinDots(["010", "000", "0", "1"]) == "010.000.0.1"
  {
    var parts := ["010", "000", "0", "1"];
    assert parts[1..] == ["000", "0", "1"] && parts[1..][1..] == ["0", "1"] && parts[1..][1..][1..] == ["1"];
    assert JoinDots(["1"]) == "1";
    assert JoinDots(["0", "1"]) == "0.1";
    assert JoinDots(["000", "0", "1"]) == "000.0.1";
  }

  /** Leading zeros pass: "010.000.0.1" is accepted and returned as it is. */
  lemma LeadingZerosAccepted()
    ensures ValidateIp("010.000.0.1") == Success("010.000.0.1")
  {
    LeadingZeroOctets();
    LeadingZeroJoin();
    QuadAccepted("010", "000", "0", "1");
  }
}
