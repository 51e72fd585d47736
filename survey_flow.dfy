/** What the survey pages share: the requests a page sends, the outcome of
    pressing its button, the browser's session storage, and the loop that
    fills a request's `data` object key by key. */
module SurveyFlow {
  import opened Common
  import SowAllocation

  /** A call a page makes, in the order it makes them. */
  datatype Request =
    | SubmitBlock(block: string, currentBlock: string, data: Record)
    | TerminateAt(point: string, data: Record)
    | CheckQuota(segment: Value)
    | AssignRetailers(storesLast3m: seq<string>, primaryStore: Value, segment: Value)

  /** What pressing a page's button does. */
  datatype Outcome =
    | Ignored                                     // the handler returns at once
    | Invalid(message: string)                    // an error is shown; nothing is sent
    | Moved                                       // the page shows its next question
    | Sent(requests: seq<Request>, path: string)  // the calls in order, then the route pushed

  /** The error a page shows when one of its calls throws. */
  const RETRY: string := "Something went wrong. Please try again."

  /** `block1_s2` names the page `/survey/block1/s2`. */
  function Slashed(s: string): (r: string)
    ensures |r| == |s|
    ensures forall i :: 0 <= i < |s| ==> r[i] == if s[i] == '_' then '/' else s[i]
  {
    seq(|s|, i requires 0 <= i < |s| => if s[i] == '_' then '/' else s[i])
  }

  /** The page a saved `current_block` resumes at. */
  function PagePath(currentBlock: string): string
  {
    if currentBlock == "complete" then "/survey/thankyou" else "/survey/" + Slashed(currentBlock)
  }

  function TerminatedPath(point: string): string
  {
    "/survey/terminated?reason=" + point
  }

  /** After its calls a page goes where its last call leaves the respondent:
      the page of the saved `current_block`, or the terminated page for the
      recorded termination point. */
  predicate Navigates(o: Outcome)
  {
    o.Sent? ==>
      (o.requests != [] &&
       match o.requests[|o.requests| - 1]
       case SubmitBlock(_, cb, _) => o.path == PagePath(cb)
       case TerminateAt(p, _) => o.path == TerminatedPath(p)
       case _ => false)
  }

  /** Save the block with its next `current_block`, then go to that page. */
  function Advance(block: string, currentBlock: string, data: Record): (o: Outcome)
    ensures o.Sent? && |o.requests| == 1 && Navigates(o)
  {
    Sent([SubmitBlock(block, currentBlock, data)], PagePath(currentBlock))
  }

  /** Terminate at `point`, then go to the terminated page. */
  function Terminate(point: string, data: Record): (o: Outcome)
    ensures o.Sent? && |o.requests| == 1 && Navigates(o)
  {
    Sent([TerminateAt(point, data)], TerminatedPath(point))
  }

  /** The routes the pages push, each the page of the `current_block` saved
      just before it. */
  lemma PagePaths()
    ensures PagePath("block1_s2") == "/survey/block1/s2"
    ensures PagePath("block1_s3") == "/survey/block1/s3"
    ensures PagePath("block1_s4") == "/survey/block1/s4"
    ensures PagePath("block1_s4a") == "/survey/block1/s4a"
    ensures PagePath("block1_s5a") == "/survey/block1/s5a"
    ensures PagePath("block1_s6") == "/survey/block1/s6"
    ensures PagePath("block3_k1") == "/survey/block3/k1"
    ensures PagePath("block5") == "/survey/block5"
    ensures PagePath("block6") == "/survey/block6"
    ensures PagePath("block7") == "/survey/block7"
    ensures PagePath("block8") == "/survey/block8"
    ensures PagePath("complete") == "/survey/thankyou"
  {
    ScreenerPaths();
    LaterPaths();
  }

  lemma ScreenerPaths()
    ensures PagePath("block1_s2") == "/survey/block1/s2"
    ensures PagePath("block1_s3") == "/survey/block1/s3"
    ensures PagePath("block1_s4") == "/survey/block1/s4"
    ensures PagePath("block1_s4a") == "/survey/block1/s4a"
    ensures PagePath("block1_s5a") == "/survey/block1/s5a"
    ensures PagePath("block1_s6") == "/survey/block1/s6"
  {
    assert Slashed("block1_s2") == "block1/s2";
    assert Slashed("block1_s3") == "block1/s3";
    assert Slashed("block1_s4") == "block1/s4";
    assert Slashed("block1_s4a") == "block1/s4a";
    assert Slashed("block1_s5a") == "block1/s5a";
    assert Slashed("block1_s6") == "block1/s6";
  }

  lemma LaterPaths()
    ensures PagePath("block3_k1") == "/survey/block3/k1"
    ensures PagePath("block5") == "/survey/block5"
    ensures PagePath("block6") == "/survey/block6"
    ensures PagePath("block7") == "/survey/block7"
    ensures PagePath("block8") == "/survey/block8"
    ensures PagePath("complete") == "/survey/thankyou"
  {
    assert Slashed("block3_k1") == "block3/k1";
    assert Slashed("block5") == "block5";
    assert Slashed("block6") == "block6";
    assert Slashed("block7") == "block7";
    assert Slashed("block8") == "block8";
  }

  // ---------------------------------------------------------------------------
  // Filling a request's `data` object.

  /** `data[key] = v`. An `undefined` v (None) leaves no key in the JSON body. */
  function Put(data: Record, key: string, v: Option<Value>): (r: Record)
    ensures Get(r, key) == v
    ensures forall k :: k != key ==> Get(r, k) == Get(data, k)
  {
    if v.Some? then data[key := v.value] else data - {key}
  }

  /** The object after `data[keys[i]] = vals[i]` for each i in turn. */
  function Filled(data: Record, keys: seq<string>, vals: seq<Option<Value>>): Record
    requires |keys| == |vals|
    decreases |keys|
  {
    if keys == [] then data
    else
      var n := |keys| - 1;
      Put(Filled(data, keys[..n], vals[..n]), keys[n], vals[n])
  }

  /** With distinct keys each one ends up holding its own value, and every
      other key keeps what it had. */
  lemma {:induction false} FilledMeaning(data: Record, keys: seq<string>, vals: seq<Option<Value>>)
    requires |keys| == |vals| && Distinct(keys)
    ensures forall i :: 0 <= i < |keys| ==> Get(Filled(data, keys, vals), keys[i]) == vals[i]
    ensures forall k :: k !in keys ==> Get(Filled(data, keys, vals), k) == Get(data, k)
  {
    if keys != [] {
      var n := |keys| - 1;
      assert Distinct(keys[..n]);
      FilledMeaning(data, keys[..n], vals[..n]);
      forall k | k in keys[..n] ensures k != keys[n] {
        var i :| 0 <= i < n && keys[..n][i] == k;
        assert keys[i] == k;
      }
      forall k | k !in keys ensures k !in keys[..n] && k != keys[n] {
        assert forall i :: 0 <= i < n ==> keys[..n][i] == keys[i];
      }
    }
  }

  /** A key the loop does not write keeps its old value, whether or not the
      keys are distinct. */
  lemma {:induction false} FilledOutside(data: Record, keys: seq<string>, vals: seq<Option<Value>>, k: string)
    requires |keys| == |vals| && k !in keys
    ensures Get(Filled(data, keys, vals), k) == Get(data, k)
    decreases |keys|
  {
    if keys != [] {
      var n := |keys| - 1;
      assert forall i :: 0 <= i < n ==> keys[..n][i] == keys[i];
      FilledOutside(data, keys[..n], vals[..n], k);
    }
  }

  /** The `forEach` that writes one key per element. */
  method Fill(data: Record, keys: seq<string>, vals: seq<Option<Value>>) returns (r: Record)
    requires |keys| == |vals|
    ensures r == Filled(data, keys, vals)
  {
    r := data;
    var i := 0;
    while i < |keys|
      invariant 0 <= i <= |keys|
      invariant r == Filled(data, keys[..i], vals[..i])
    {
      assert keys[..i + 1][..i] == keys[..i];
      assert vals[..i + 1][..i] == vals[..i];
      r := Put(r, keys[i], vals[i]);
      i := i + 1;
    }
    assert keys[..|keys|] == keys && vals[..|vals|] == vals;
  }

  /** `codes.filter(c => answers[c] == null)`: the codes still unanswered. */
  function Missing(codes: seq<string>, answers: map<string, int>): (u: seq<string>)
    ensures |u| <= |codes|
    ensures forall c :: c in u <==> c in codes && c !in answers
    ensures u == [] <==> forall c :: c in codes ==> c in answers
    ensures SubsequenceOf(u, codes)
  {
    if codes == [] then []
    else
      var rest := Missing(codes[1..], answers);
      if codes[0] !in answers then
        assert ([codes[0]] + rest)[1..] == rest;
        [codes[0]] + rest
      else rest
  }

  /** How many times each code is still unanswered depends only on how
      many times it is listed, not on the order of the list. */
  lemma {:induction false} MissingMultiset(codes: seq<string>, answers: map<string, int>)
    ensures forall c :: multiset(Missing(codes, answers))[c] == if c in answers then 0 else multiset(codes)[c]
  {
    if codes != [] {
      MissingMultiset(codes[1..], answers);
      assert codes == [codes[0]] + codes[1..];
      assert multiset(codes) == multiset([codes[0]]) + multiset(codes[1..]);
    }
  }

  /** The number still unanswered is the same for any ordering of the list. */
  lemma MissingCountOrderFree(xs: seq<string>, ys: seq<string>, answers: map<string, int>)
    requires multiset(xs) == multiset(ys)
    ensures |Missing(xs, answers)| == |Missing(ys, answers)|
  {
    MissingMultiset(xs, answers);
    MissingMultiset(ys, answers);
    assert multiset(Missing(xs, answers)) == multiset(Missing(ys, answers));
    assert |multiset(Missing(xs, answers))| == |Missing(xs, answers)|;
  }

  /** `codes.filter(c => answers[c] === level)`, in the order of `codes`. */
  function AtLevel(codes: seq<string>, answers: map<string, int>, level: int): (r: seq<string>)
    ensures |r| <= |codes|
    ensures forall c :: c in r <==> c in codes && c in answers && answers[c] == level
    ensures SubsequenceOf(r, codes)
  {
    if codes == [] then []
    else
      var rest := AtLevel(codes[1..], answers, level);
      if codes[0] in answers && answers[codes[0]] == level then
        assert ([codes[0]] + rest)[1..] == rest;
        [codes[0]] + rest
      else rest
  }

  /** `codes.map(c => answers[c])`: `undefined` for an unanswered code. */
  function Answers(codes: seq<string>, answers: map<string, int>): (vs: seq<Option<Value>>)
    ensures |vs| == |codes|
    ensures forall i :: 0 <= i < |codes| ==> vs[i] == Answer(answers, codes[i])
  {
    seq(|codes|, i requires 0 <= i < |codes| => Answer(answers, codes[i]))
  }

  /** `codes.map(c => answers[c] ?? null)` */
  function AnswersOrNull(codes: seq<string>, answers: map<string, int>): (vs: seq<Option<Value>>)
    ensures |vs| == |codes|
    ensures forall i :: 0 <= i < |codes| ==>
              vs[i] == Some(if codes[i] in answers then Num(answers[codes[i]]) else Null)
  {
    seq(|codes|, i requires 0 <= i < |codes| => Some(if codes[i] in answers then Num(answers[codes[i]]) else Null))
  }

  /** The keys `${prefix}${code}${suffix}`, one per code. */
  function Keyed(prefix: string, codes: seq<string>, suffix: string): (ks: seq<string>)
    ensures |ks| == |codes|
    ensures forall i :: 0 <= i < |codes| ==> ks[i] == prefix + codes[i] + suffix
  {
    seq(|codes|, i requires 0 <= i < |codes| => prefix + codes[i] + suffix)
  }

  lemma AffixInjective(prefix: string, a: string, b: string, suffix: string)
    ensures a != b ==> prefix + a + suffix != prefix + b + suffix
  {
    if |a| == |b| {
      assert a == (prefix + a + suffix)[|prefix|..|prefix| + |a|];
      assert b == (prefix + b + suffix)[|prefix|..|prefix| + |b|];
    }
  }

  /** Distinct codes give distinct keys. */
  lemma KeyedDistinct(prefix: string, codes: seq<string>, suffix: string)
    requires Distinct(codes)
    ensures Distinct(Keyed(prefix, codes, suffix))
  {
    var ks := Keyed(prefix, codes, suffix);
    forall i, j | 0 <= i < j < |ks| ensures ks[i] != ks[j] {
      AffixInjective(prefix, codes[i], codes[j], suffix);
    }
  }

  /** The keys `${prefix}${num}_${rest}` the per-retailer pages save under,
      numbered by list position. */
  function Numbered(prefix: string, num: nat, rest: string): string
  {
    prefix + NatToString(num) + "_" + rest
  }

  /** With a one-digit position, the position and the rest can be read back
      from the key. */
  lemma NumberedInjective(prefix: string, a: nat, f: string, b: nat, g: string)
    requires 1 <= a <= 9 && 1 <= b <= 9
    ensures Numbered(prefix, a, f) == Numbered(prefix, b, g) ==> a == b && f == g
  {
    assert NatToString(a) == [DigitChar(a)];
    assert NatToString(b) == [DigitChar(b)];
    if Numbered(prefix, a, f) == Numbered(prefix, b, g) {
      var k := Numbered(prefix, a, f);
      assert k[|prefix|] == DigitChar(a);
      assert Numbered(prefix, b, g)[|prefix|] == DigitChar(b);
      assert f == k[|prefix| + 2..];
      assert g == Numbered(prefix, b, g)[|prefix| + 2..];
    }
  }

  /** `if (text.trim()) data[key] = text.trim()` */
  function WithText(data: Record, key: string, text: string): (r: Record)
    ensures Trim(text) != "" ==> key in r && r[key] == Str(Trim(text))
    ensures Trim(text) == "" ==> r == data
    ensures forall k :: k != key ==> Get(r, k) == Get(data, k)
  {
    if Trim(text) != "" then data[key := Str(Trim(text))] else data
  }

  /** `map[code]` read from an answer dictionary: `undefined` when unset. */
  function Answer(m: map<string, int>, key: string): Option<Value>
  {
    if key in m then Some(Num(m[key])) else None
  }

  // ---------------------------------------------------------------------------
  // Session storage, with values the pages store as JSON held as themselves.

  datatype Stored =
    | Text(text: string)
    | Codes(codes: seq<string>)
    | Numbers(numbers: map<string, int>)
    | Shares(shares: seq<SowAllocation.Share>)

  class Session {
    var items: map<string, Stored>

    constructor()
      ensures items == map[]
    {
      items := map[];
    }

    /** `sessionStorage.setItem(key, v)` */
    method SetItem(key: string, v: Stored)
      modifies this
      ensures items == old(items)[key := v]
    {
      items := items[key := v];
    }

    /** `sessionStorage.getItem(key)` for a plain string; null otherwise. */
    function TextOf(key: string): Option<string>
      reads this
    {
      if key in items && items[key].Text? then Some(items[key].text) else None
    }

    /** A stored string sent as JSON: the string, or null. */
    function TextValue(key: string): Value
      reads this
    {
      OptStr(TextOf(key))
    }

    /** `getItem(key) || ''` */
    function TextOrEmpty(key: string): string
      reads this
    {
      if TextOf(key).Some? then TextOf(key).value else ""
    }

    function CodesOf(key: string): Option<seq<string>>
      reads this
    {
      if key in items && items[key].Codes? then Some(items[key].codes) else None
    }

    function NumbersOf(key: string): Option<map<string, int>>
      reads this
    {
      if key in items && items[key].Numbers? then Some(items[key].numbers) else None
    }

    function SharesOf(key: string): Option<seq<SowAllocation.Share>>
      reads this
    {
      if key in items && items[key].Shares? then Some(items[key].shares) else None
    }
  }

  /** `[r1, r2, r3]` read back from session storage, with the key each came from. */
  datatype Slot = Slot(key: string, code: string)

  /** The retailers a per-retailer page asks about: the non-empty r1, r2, r3,
      in that order. */
  function AssignedRetailers(r1: Option<string>, r2: Option<string>, r3: Option<string>): (rs: seq<Slot>)
    ensures |rs| <= 3
    ensures forall i :: 0 <= i < |rs| ==> rs[i].code != ""
    ensures forall i, j :: 0 <= i < j < |rs| ==> |rs[i].key| == |rs[j].key| == 2 && rs[i].key[1] < rs[j].key[1]
    ensures (r1.Some? && r1.value != "") <==> Slot("r1", OrEmpty(r1)) in rs
    ensures (r2.Some? && r2.value != "") <==> Slot("r2", OrEmpty(r2)) in rs
    ensures (r3.Some? && r3.value != "") <==> Slot("r3", OrEmpty(r3)) in rs
    ensures forall s :: s in rs ==> s.key in {"r1", "r2", "r3"}
  {
    SlotsShape(r1, r2, r3);
    SlotsPresence(r1, r2, r3);
    One("r1", r1) + One("r2", r2) + One("r3", r3)
  }

  lemma SlotsShape(r1: Option<string>, r2: Option<string>, r3: Option<string>)
    ensures var rs := One("r1", r1) + One("r2", r2) + One("r3", r3);
            |rs| <= 3 && (forall i :: 0 <= i < |rs| ==> rs[i].code != "") &&
            (forall i, j :: 0 <= i < j < |rs| ==> |rs[i].key| == |rs[j].key| == 2 && rs[i].key[1] < rs[j].key[1]) &&
            (forall s :: s in rs ==> s.key in {"r1", "r2", "r3"})
  {
  }

  lemma SlotsPresence(r1: Option<string>, r2: Option<string>, r3: Option<string>)
    ensures var rs := One("r1", r1) + One("r2", r2) + One("r3", r3);
            ((r1.Some? && r1.value != "") <==> Slot("r1", OrEmpty(r1)) in rs) &&
            ((r2.Some? && r2.value != "") <==> Slot("r2", OrEmpty(r2)) in rs) &&
            ((r3.Some? && r3.value != "") <==> Slot("r3", OrEmpty(r3)) in rs)
  {
  }

  function OrEmpty(o: Option<string>): string
  {
    if o.Some? then o.value else ""
  }

  /** The slot a retailer answer fills: none when the answer is missing or empty. */
  function One(key: string, o: Option<string>): (rs: seq<Slot>)
    ensures |rs| <= 1
    ensures rs != [] <==> o.Some? && o.value != ""
    ensures rs != [] ==> rs[0].key == key && rs[0].code == o.value
  {
    if o.Some? && o.value != "" then [Slot(key, o.value)] else []
  }

  predicate DistinctKeys(rs: seq<Slot>)
  {
    forall i, j :: 0 <= i < j < |rs| ==> rs[i].key != rs[j].key
  }

  /** What one click on a multi-step page yields: the outcome, the new step
      counter and the new error text. */
  datatype Click = Click(o: Outcome, step: nat, error: string)

  /** Answers are saved under the list position, not the session slot: with
      r2 empty, the third slot's answers go to the second position. */
  lemma PositionNotSlot(a: string, c: string)
    requires a != "" && c != ""
    ensures AssignedRetailers(Some(a), Some(""), Some(c)) == [Slot("r1", a), Slot("r3", c)]
  {
  }
}
