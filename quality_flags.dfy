/** Data-quality flags computed when a respondent completes the survey:
    speeding, straight-lining of the attribute grids, and gibberish in the
    open-ended answers. */
module QualityFlags {
  import opened Common
  import opened Constants

  // ---------------------------------------------------------------------------
  // allIdentical

  /** The entries that are neither `null` nor `undefined`, in order. */
  function NonNull(vs: seq<Option<Value>>): (r: seq<Value>)
    ensures |r| <= |vs|
    ensures forall x :: x in r ==> x != Null
    ensures forall i :: 0 <= i < |vs| && Present(vs[i]) ==> vs[i].value in r
    ensures forall x :: x in r ==> exists i :: 0 <= i < |vs| && vs[i] == Some(x)
  {
    if vs == [] then []
    else
      var rest := NonNull(vs[1..]);
      assert forall i :: 1 <= i < |vs| ==> vs[i] == vs[1..][i - 1];
      if Present(vs[0]) then [vs[0].value] + rest else rest
  }

  /** Each value as a present entry. */
  function Somes(xs: seq<Value>): seq<Option<Value>>
  {
    seq(|xs|, i requires 0 <= i < |xs| => Some(xs[i]))
  }

  /** The filter keeps order and repetitions: taken back as entries, its
      result is a subsequence of the input that holds every present entry. */
  lemma {:induction false} NonNullInOrder(vs: seq<Option<Value>>)
    ensures SubsequenceOf(Somes(NonNull(vs)), vs)
  {
    if vs != [] {
      NonNullInOrder(vs[1..]);
      if Present(vs[0]) {
        assert Somes(NonNull(vs))[1..] == Somes(NonNull(vs[1..]));
      }
    }
  }

  /** True when at least two entries are present and all present entries are equal. */
  function AllIdentical(vs: seq<Option<Value>>): (b: bool)
  {
    var nn := NonNull(vs);
    if |nn| < 2 then false else forall x :: x in nn ==> x == nn[0]
  }

  /** The number of present entries. */
  function PresentCount(vs: seq<Option<Value>>): (n: nat)
  {
    if vs == [] then 0 else (if Present(vs[0]) then 1 else 0) + PresentCount(vs[1..])
  }

  lemma {:induction false} NonNullLength(vs: seq<Option<Value>>)
    ensures |NonNull(vs)| == PresentCount(vs)
  {
    if vs != [] {
      NonNullLength(vs[1..]);
    }
  }

  /** allIdentical, stated on the input positions: it holds exactly when at
      least two entries are present and every two present entries are equal.
      In particular it is false when fewer than two entries are present. */
  lemma AllIdenticalMeaning(vs: seq<Option<Value>>)
    ensures AllIdentical(vs) <==>
              PresentCount(vs) >= 2 &&
              forall i, j :: 0 <= i < |vs| && 0 <= j < |vs| && Present(vs[i]) && Present(vs[j]) ==>
                vs[i] == vs[j]
  {
    NonNullLength(vs);
    var nn := NonNull(vs);
    if AllIdentical(vs) {
      forall i, j | 0 <= i < |vs| && 0 <= j < |vs| && Present(vs[i]) && Present(vs[j])
        ensures vs[i] == vs[j]
      {
        assert vs[i].value in nn && vs[j].value in nn;
      }
    }
    if PresentCount(vs) >= 2 &&
       forall i, j :: 0 <= i < |vs| && 0 <= j < |vs| && Present(vs[i]) && Present(vs[j]) ==> vs[i] == vs[j]
    {
      assert nn[0] in nn;
      forall x | x in nn ensures x == nn[0] {
        var i :| 0 <= i < |vs| && vs[i] == Some(x);
        var j :| 0 <= j < |vs| && vs[j] == Some(nn[0]);
      }
    }
  }

  // ---------------------------------------------------------------------------
  // isGibberish: the three regular expressions as predicates over the text.

  predicate IsAsciiLetter(c: char)
  {
    ('a' <= c <= 'z') || ('A' <= c <= 'Z')
  }

  predicate IsVowel(c: char)
  {
    c in "aeiouAEIOU"
  }

  /** `.` in a JavaScript regular expression matches anything but a line terminator. */
  predicate IsLineTerminator(c: char)
  {
    c == '\n' || c == '\r' || c == '\U{2028}' || c == '\U{2029}'
  }

  /** `/[a-zA-Z]{3,}/.test(s)`, searching left to right: three consecutive
      ASCII letters somewhere. */
  predicate HasLetterRun(s: string)
  {
    |s| >= 3 && ((IsAsciiLetter(s[0]) && IsAsciiLetter(s[1]) && IsAsciiLetter(s[2])) || HasLetterRun(s[1..]))
  }

  /** `/(.)\1{4,}/.test(s)`: one character (not a line terminator) five times in a row. */
  predicate HasRepeatRun(s: string)
  {
    |s| >= 5 &&
    ((!IsLineTerminator(s[0]) && s[1] == s[0] && s[2] == s[0] && s[3] == s[0] && s[4] == s[0])
     || HasRepeatRun(s[1..]))
  }

  predicate LetterRunAt(s: string, i: int)
  {
    0 <= i && i + 3 <= |s| && IsAsciiLetter(s[i]) && IsAsciiLetter(s[i + 1]) && IsAsciiLetter(s[i + 2])
  }

  predicate RepeatRunAt(s: string, i: int)
  {
    0 <= i && i + 5 <= |s| && !IsLineTerminator(s[i]) &&
    s[i + 1] == s[i] && s[i + 2] == s[i] && s[i + 3] == s[i] && s[i + 4] == s[i]
  }

  /** The left-to-right search finds a letter run exactly when one exists at some position. */
  lemma {:induction false} HasLetterRunMeaning(s: string)
    ensures HasLetterRun(s) <==> exists i :: LetterRunAt(s, i)
  {
    if |s| >= 3 {
      HasLetterRunMeaning(s[1..]);
      if LetterRunAt(s, 0) {
      } else if exists i :: LetterRunAt(s, i) {
        var i :| LetterRunAt(s, i);
        assert LetterRunAt(s[1..], i - 1);
      }
      if exists i :: LetterRunAt(s[1..], i) {
        var i :| LetterRunAt(s[1..], i);
        assert LetterRunAt(s, i + 1);
      }
    } else {
      assert forall i :: !LetterRunAt(s, i);
    }
  }

  /** The left-to-right search finds a five-fold repeat exactly when one exists at some position. */
  lemma {:induction false} HasRepeatRunMeaning(s: string)
    ensures HasRepeatRun(s) <==> exists i :: RepeatRunAt(s, i)
  {
    if |s| >= 5 {
      HasRepeatRunMeaning(s[1..]);
      if RepeatRunAt(s, 0) {
      } else if exists i :: RepeatRunAt(s, i) {
        var i :| RepeatRunAt(s, i);
        assert RepeatRunAt(s[1..], i - 1);
      }
      if exists i :: RepeatRunAt(s[1..], i) {
        var i :| RepeatRunAt(s[1..], i);
        assert RepeatRunAt(s, i + 1);
      }
    } else {
      assert forall i :: !RepeatRunAt(s, i);
    }
  }

  /** `text.replace(/[^a-zA-Z]/g, '')` */
  function LettersOnly(s: string): (r: string)
    ensures |r| <= |s|
    ensures forall c :: c in r <==> c in s && IsAsciiLetter(c)
  {
    if s == [] then []
    else (if IsAsciiLetter(s[0]) then [s[0]] else []) + LettersOnly(s[1..])
  }

  /** The strip keeps every ASCII letter as often as it occurs and nothing
      else; so its length is the text's letter count. */
  lemma {:induction false} LettersOnlyCounts(s: string)
    ensures forall c :: multiset(LettersOnly(s))[c] == if IsAsciiLetter(c) then multiset(s)[c] else 0
  {
    if s != [] {
      LettersOnlyCounts(s[1..]);
      var h := if IsAsciiLetter(s[0]) then [s[0]] else [];
      assert multiset(LettersOnly(s)) == multiset(h) + multiset(LettersOnly(s[1..]));
      assert s == [s[0]] + s[1..];
      assert multiset(s) == multiset([s[0]]) + multiset(s[1..]);
    }
  }

  /** The strip keeps the letters in the text's order. */
  lemma {:induction false} LettersOnlyInOrder(s: string)
    ensures SubsequenceOf(LettersOnly(s), s)
  {
    if s != [] {
      LettersOnlyInOrder(s[1..]);
      if IsAsciiLetter(s[0]) {
        assert LettersOnly(s)[1..] == LettersOnly(s[1..]);
      } else {
        assert LettersOnly(s) == [] + LettersOnly(s[1..]) == LettersOnly(s[1..]);
      }
    }
  }

  /** `/^[^aeiouAEIOU]+$/`: non-empty and without a vowel. */
  predicate NoVowel(s: string)
  {
    |s| > 0 && forall i :: 0 <= i < |s| ==> !IsVowel(s[i])
  }

  /** A text is gibberish when it has at least five characters and either has no
      three-letter run, or repeats one character five times, or its letters
      number at least five and contain no vowel. `None` stands for a missing text. */
  function IsGibberish(text: Option<string>): (b: bool)
  {
    if text.None? || |text.value| < 5 then false
    else
      var t := text.value;
      var stripped := LettersOnly(t);
      !HasLetterRun(t) || HasRepeatRun(t) || (|stripped| >= 5 && NoVowel(stripped))
  }

  /** isGibberish stated through the positions of the text: missing or short
      texts are never flagged; otherwise the text is flagged exactly when no
      position starts a three-letter run, or some position starts a five-fold
      repeat, or at least five letters are present and none of them is a vowel. */
  lemma IsGibberishMeaning(text: Option<string>)
    ensures text.None? || |text.value| < 5 ==> !IsGibberish(text)
    ensures text.Some? && |text.value| >= 5 ==>
              (IsGibberish(text) <==>
                 (forall i :: !LetterRunAt(text.value, i)) ||
                 (exists i :: RepeatRunAt(text.value, i)) ||
                 (|LettersOnly(text.value)| >= 5 &&
                  forall c :: c in text.value && IsAsciiLetter(c) ==> !IsVowel(c)))
  {
    if text.Some? && |text.value| >= 5 {
      var t := text.value;
      HasLetterRunMeaning(t);
      HasRepeatRunMeaning(t);
      var st := LettersOnly(t);
      if |st| >= 5 {
        assert NoVowel(st) <==> forall c :: c in st ==> !IsVowel(c);
      }
    }
  }

  /** Keyboard-mashing that contains vowels and no five-fold repeat is not
      flagged: 'asdasdasd' has the run 'asd' and the vowel 'a'. */
  lemma RepeatedSyllablesNotFlagged()
    ensures !IsGibberish(Some("asdasdasd"))
  {
    var t := "asdasdasd";
    assert HasLetterRun(t);
    assert !HasRepeatRun(t);
    assert t[0] == 'a' && t[0] in t;
    assert t[0] in LettersOnly(t);
  }

  /** Five identical characters are always flagged. */
  lemma FiveFoldRepeatFlagged()
    ensures IsGibberish(Some("aaaaa"))
  {
    assert HasRepeatRun("aaaaa");
  }

  /** Any text of five or more letters without a vowel is flagged, even though
      it has a three-letter run. */
  lemma {:induction false} ConsonantsFlagged(z: string)
    requires |z| >= 5
    requires forall i :: 0 <= i < |z| ==> IsAsciiLetter(z[i]) && !IsVowel(z[i])
    ensures IsGibberish(Some(z))
  {
    LettersOnlyKeepsLetters(z);
  }

  /** Stripping a text made only of letters leaves it unchanged. */
  lemma {:induction false} LettersOnlyKeepsLetters(s: string)
    requires forall i :: 0 <= i < |s| ==> IsAsciiLetter(s[i])
    ensures LettersOnly(s) == s
  {
    if s != [] {
      LettersOnlyKeepsLetters(s[1..]);
    }
  }

  // ---------------------------------------------------------------------------
  // computeQualityFlags

  datatype Flags = Flags(
    speeder: nat, straightlinerK1: nat, straightlinerK2: nat,
    gibberishNps: nat, gibberishL1a: nat, gibberishL2a: nat)

  /** The attribute codes exactly as the flag computation lists them. */
  const K2_ATTRS: seq<string> := [
    "lowest_price", "best_value", "prod_quality", "produce_fresh",
    "meat_seafood", "private_label", "assortment", "cleanliness",
    "checkout", "location", "digital", "prepared_foods", "price_stability"
  ]

  const K1_KEYS: seq<string> := [
    "k1_imp_lowest_price", "k1_imp_best_value", "k1_imp_prod_quality",
    "k1_imp_produce_fresh", "k1_imp_meat_seafood", "k1_imp_private_label",
    "k1_imp_assortment", "k1_imp_cleanliness", "k1_imp_checkout",
    "k1_imp_location", "k1_imp_digital", "k1_imp_prepared_foods",
    "k1_imp_price_stability"
  ]

  /** The hard-coded lists agree with the attribute catalogue, so the flags read
      exactly the keys the attribute grids save. */
  lemma FlagKeysMatchCatalogue()
    ensures K2_ATTRS == KpcCodes()
    ensures |K1_KEYS| == |KpcCodes()|
    ensures forall i :: 0 <= i < |K1_KEYS| ==> K1_KEYS[i] == "k1_imp_" + KpcCodes()[i]
  {
    KpcShape();
    assert K2_ATTRS == KpcCodes();
    K1KeysArePrefixed();
  }

  lemma K1KeysArePrefixed()
    ensures |K1_KEYS| == |K2_ATTRS|
    ensures forall i :: 0 <= i < |K1_KEYS| ==> K1_KEYS[i] == "k1_imp_" + K2_ATTRS[i]
  {
    K1KeysPrefixedLow();
    K1KeysPrefixedMid();
    K1KeysPrefixedHigh();
  }

  lemma K1KeysPrefixedLow()
    ensures |K1_KEYS| == |K2_ATTRS|
    ensures forall i :: 0 <= i < 4 ==> K1_KEYS[i] == "k1_imp_" + K2_ATTRS[i]
  {
    assert K1_KEYS[0] == "k1_imp_" + K2_ATTRS[0];
    assert K1_KEYS[1] == "k1_imp_" + K2_ATTRS[1];
    assert K1_KEYS[2] == "k1_imp_" + K2_ATTRS[2];
    assert K1_KEYS[3] == "k1_imp_" + K2_ATTRS[3];
  }

  lemma K1KeysPrefixedMid()
    ensures |K1_KEYS| == |K2_ATTRS|
    ensures forall i :: 4 <= i < 8 ==> K1_KEYS[i] == "k1_imp_" + K2_ATTRS[i]
  {
    assert K1_KEYS[4] == "k1_imp_" + K2_ATTRS[4];
    assert K1_KEYS[5] == "k1_imp_" + K2_ATTRS[5];
    assert K1_KEYS[6] == "k1_imp_" + K2_ATTRS[6];
    assert K1_KEYS[7] == "k1_imp_" + K2_ATTRS[7];
  }

  lemma K1KeysPrefixedHigh()
    ensures |K1_KEYS| == |K2_ATTRS|
    ensures forall i :: 8 <= i < 13 ==> K1_KEYS[i] == "k1_imp_" + K2_ATTRS[i]
  {
    assert K1_KEYS[8] == "k1_imp_" + K2_ATTRS[8];
    assert K1_KEYS[9] == "k1_imp_" + K2_ATTRS[9];
    assert K1_KEYS[10] == "k1_imp_" + K2_ATTRS[10];
    assert K1_KEYS[11] == "k1_imp_" + K2_ATTRS[11];
    assert K1_KEYS[12] == "k1_imp_" + K2_ATTRS[12];
  }

  function Lookup(r: Record, keys: seq<string>): (vs: seq<Option<Value>>)
    ensures |vs| == |keys|
    ensures forall i :: 0 <= i < |keys| ==> vs[i] == Get(r, keys[i])
  {
    seq(|keys|, i requires 0 <= i < |keys| => Get(r, keys[i]))
  }

  function K2Keys(slot: string): seq<string>
  {
    seq(|K2_ATTRS|, i requires 0 <= i < |K2_ATTRS| => "k2_perf_r" + slot + "_" + K2_ATTRS[i])
  }

  const SLOTS: seq<string> := ["1", "2", "3"]

  function NpsVerbatimKey(slot: string): string
  {
    "nps_r" + slot + "_verbatim"
  }

  /** A text field as the flags read it: a string, or nothing. */
  function TextField(r: Record, key: string): Option<string>
  {
    if key in r && r[key].Str? then Some(r[key].s) else None
  }

  predicate IsSpeeder(r: Record)
  {
    "duration_seconds" in r && r["duration_seconds"].Num? && r["duration_seconds"].n < 180
  }

  function Bit(b: bool): (n: nat)
    ensures n <= 1 && (n == 1 <==> b)
  {
    if b then 1 else 0
  }

  function ComputeQualityFlags(r: Record): (f: Flags)
    ensures f.speeder == 1 <==> IsSpeeder(r)
    ensures f.straightlinerK1 == 1 <==> AllIdentical(Lookup(r, K1_KEYS))
    ensures f.straightlinerK2 == 1 <==>
              exists k :: 0 <= k < |SLOTS| && AllIdentical(Lookup(r, K2Keys(SLOTS[k])))
    ensures f.gibberishNps == 1 <==>
              exists k :: 0 <= k < |SLOTS| && IsGibberish(TextField(r, NpsVerbatimKey(SLOTS[k])))
    ensures f.gibberishL1a == 1 <==> IsGibberish(TextField(r, "fareway_improve_verbatim"))
    ensures f.gibberishL2a == 1 <==> IsGibberish(TextField(r, "fareway_tryme_verbatim"))
    ensures f.speeder <= 1 && f.straightlinerK1 <= 1 && f.straightlinerK2 <= 1
    ensures f.gibberishNps <= 1 && f.gibberishL1a <= 1 && f.gibberishL2a <= 1
  {
    Flags(
      Bit(IsSpeeder(r)),
      Bit(AllIdentical(Lookup(r, K1_KEYS))),
      Bit(AllIdentical(Lookup(r, K2Keys(SLOTS[0]))) || AllIdentical(Lookup(r, K2Keys(SLOTS[1])))
          || AllIdentical(Lookup(r, K2Keys(SLOTS[2])))),
      Bit(IsGibberish(TextField(r, NpsVerbatimKey(SLOTS[0]))) || IsGibberish(TextField(r, NpsVerbatimKey(SLOTS[1])))
          || IsGibberish(TextField(r, NpsVerbatimKey(SLOTS[2])))),
      Bit(IsGibberish(TextField(r, "fareway_improve_verbatim"))),
      Bit(IsGibberish(TextField(r, "fareway_tryme_verbatim"))))
  }
}
