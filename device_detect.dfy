/** Device classification from the User-Agent header, by ordered substring
    tests on the lower-cased string. */
module DeviceDetect {

  datatype Device = Mobile | Tablet | Desktop

  function DeviceName(d: Device): string
  {
    match d
    case Mobile => "mobile"
    case Tablet => "tablet"
    case Desktop => "desktop"
  }

  /** The lower case of one character, for the characters whose lower case
      is an ASCII letter: 'A'..'Z' and the Kelvin sign U+212A, which lowers to 'k'. */
  function LowerChar(c: char): char
  {
    if 'A' <= c <= 'Z' then (c as int - 'A' as int + 'a' as int) as char
    else if c == '\U{212A}' then 'k'
    else c
  }

  /** `toLowerCase()` on the characters that lower to ASCII letters. */
  function Lower(s: string): (r: string)
    ensures |r| == |s|
    ensures forall i :: 0 <= i < |s| ==> r[i] == LowerChar(s[i])
  {
    if s == [] then [] else [LowerChar(s[0])] + Lower(s[1..])
  }

  /** Lower-casing twice is lower-casing once. */
  lemma LowerIdempotent(s: string)
    ensures Lower(Lower(s)) == Lower(s)
  {
    var l := Lower(s);
    assert forall i :: 0 <= i < |s| ==> LowerChar(l[i]) == l[i];
  }

  /** `s.startsWith(p)` */
  predicate StartsWith(s: string, p: string)
  {
    |p| <= |s| && s[..|p|] == p
  }

  /** `/p/.test(s)` for a literal pattern `p`, searching left to right. */
  predicate Contains(s: string, p: string)
    decreases |s|
  {
    StartsWith(s, p) || (s != [] && Contains(s[1..], p))
  }

  predicate OccursAt(s: string, p: string, i: int)
  {
    0 <= i && i + |p| <= |s| && s[i..i + |p|] == p
  }

  /** The search finds the pattern exactly when it occurs at some position. */
  lemma {:induction false} ContainsMeaning(s: string, p: string)
    ensures Contains(s, p) <==> exists i :: OccursAt(s, p, i)
    decreases |s|
  {
    if StartsWith(s, p) {
      assert OccursAt(s, p, 0);
    } else if s != [] {
      ContainsMeaning(s[1..], p);
      if exists i :: OccursAt(s[1..], p, i) {
        var i :| OccursAt(s[1..], p, i);
        assert s[i + 1..i + 1 + |p|] == s[1..][i..i + |p|];
        assert OccursAt(s, p, i + 1);
      }
      if exists i :: OccursAt(s, p, i) {
        var i :| OccursAt(s, p, i);
        assert i != 0;
        assert s[1..][i - 1..i - 1 + |p|] == s[i..i + |p|];
        assert OccursAt(s[1..], p, i - 1);
      }
    } else {
      assert forall i :: !OccursAt(s, p, i);
    }
  }

  predicate ContainsAny(s: string, ps: seq<string>)
  {
    exists k :: 0 <= k < |ps| && Contains(s, ps[k])
  }

  const TABLET_WORDS: seq<string> := ["ipad", "tablet", "playbook", "silk"]
  const MOBILE_WORDS: seq<string> := ["mobile", "iphone", "ipod", "android", "blackberry", "opera mini", "iemobile"]

  function DetectDevice(userAgent: string): (d: Device)
  {
    var ua := Lower(userAgent);
    if ContainsAny(ua, TABLET_WORDS) then Tablet
    else if Contains(ua, "android") && !Contains(ua, "mobile") then Tablet
    else if ContainsAny(ua, MOBILE_WORDS) then Mobile
    else Desktop
  }

  /** Classification ignores letter case. */
  lemma DetectDeviceCaseInsensitive(ua: string)
    ensures DetectDevice(Lower(ua)) == DetectDevice(ua)
  {
    LowerIdempotent(ua);
  }

  /** The classes, stated on the lower-cased agent: a tablet word wins over any
      mobile word; Android without 'mobile' is a tablet; any other mobile word
      makes a phone; and 'desktop' means that no keyword at all occurs. */
  lemma DetectDeviceClasses(userAgent: string)
    ensures var ua := Lower(userAgent);
            (ContainsAny(ua, TABLET_WORDS) ==> DetectDevice(userAgent) == Tablet) &&
            (Contains(ua, "android") && !Contains(ua, "mobile") ==> DetectDevice(userAgent) == Tablet) &&
            (DetectDevice(userAgent) == Mobile <==>
               !ContainsAny(ua, TABLET_WORDS) && ContainsAny(ua, MOBILE_WORDS) &&
               !(Contains(ua, "android") && !Contains(ua, "mobile"))) &&
            (DetectDevice(userAgent) == Desktop <==>
               !ContainsAny(ua, TABLET_WORDS) && !ContainsAny(ua, MOBILE_WORDS))
  {
    var ua := Lower(userAgent);
    if Contains(ua, "android") {
      assert Contains(ua, MOBILE_WORDS[3]);
    }
  }
}
