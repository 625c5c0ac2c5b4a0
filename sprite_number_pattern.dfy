/**
 * The pattern `_(\d+)(?!.*_\d+)` that both sprite-name comparers run through
 * `Regex.Match`, together with the `int.Parse`, `int.ToString` and
 * `int.CompareTo` calls around it.
 *
 * The regex engine is modelled twice: `PatternAt` and `IsEngineMatch` say
 * declaratively what the engine reports (the leftmost start, then the
 * longest capture the lookahead admits), and `FindMatch` computes it by a
 * right-to-left scan for the last underscore that is followed by a digit.
 * `FindMatch`'s contract and `EngineMatchIsFound` tie the two together.
 * Names are ASCII strings: `\d` is '0'..'9' and `.` matches every character.
 */
module SpriteNumberPattern {
  import opened Wrappers

  predicate IsDigit(c: char) { '0' <= c <= '9' }

  predicate AllDigits(s: string) { forall i :: 0 <= i < |s| ==> IsDigit(s[i]) }

  /** `_\d` starts at position `p`: an underscore immediately followed by a digit. */
  predicate MarkerAt(s: string, p: int) {
    0 <= p && p + 1 < |s| && s[p] == '_' && IsDigit(s[p + 1])
  }

  /** The name carries a frame number: some underscore is followed by a digit. */
  ghost predicate HasNumber(s: string) {
    exists p :: MarkerAt(s, p)
  }

  /**
   * The pattern matches `s[p..e]`, capturing `s[p+1..e]`: an underscore, one or
   * more digits, and no `_\d` anywhere after the digits (the negative lookahead).
   */
  ghost predicate PatternAt(s: string, p: int, e: int) {
    && 0 <= p && p + 1 < e <= |s|
    && s[p] == '_'
    && AllDigits(s[p + 1..e])
    && forall t :: e <= t < |s| ==> !MarkerAt(s, t)
  }

  /**
   * The match the engine reports: the leftmost start at which the pattern
   * matches at all, and there the longest capture (`\d+` is greedy).
   */
  ghost predicate IsEngineMatch(s: string, p: int, e: int) {
    && PatternAt(s, p, e)
    && (forall p', e' :: 0 <= p' < p ==> !PatternAt(s, p', e'))
    && (forall e' :: e < e' ==> !PatternAt(s, p, e'))
  }

  /** End of the maximal run of digits that starts at `q`. */
  function DigitRunEnd(s: string, q: nat): (e: nat)
    requires q <= |s|
    ensures q <= e <= |s|
    ensures AllDigits(s[q..e])
    ensures e < |s| ==> !IsDigit(s[e])
    decreases |s| - q
  {
    if q < |s| && IsDigit(s[q]) then
      var e := DigitRunEnd(s, q + 1);
      assert s[q..e] == [s[q]] + s[q + 1..e];
      e
    else q
  }

  /** The last position below `n` where `_\d` starts, if any. */
  function LastMarker(s: string, n: nat): (r: Option<nat>)
    requires n <= |s|
    ensures r.Some? ==> r.value < n && MarkerAt(s, r.value)
    ensures r.Some? ==> forall t :: r.value < t < n ==> !MarkerAt(s, t)
    ensures r.None? ==> forall t :: 0 <= t < n ==> !MarkerAt(s, t)
    decreases n
  {
    if n == 0 then None
    else if MarkerAt(s, n - 1) then Some(n - 1)
    else LastMarker(s, n - 1)
  }

  /** A digit at position `t` inside the capture `s[p+1..e]`. */
  lemma DigitInside(s: string, p: int, e: int, t: int)
    requires 0 <= p && p + 1 <= t < e <= |s| && AllDigits(s[p + 1..e])
    ensures IsDigit(s[t])
  {
    assert s[p + 1..e][t - (p + 1)] == s[t];
  }

  /**
   * The scan: the last `_\d` and the digit run after it. It finds exactly the
   * match the engine reports, and finds nothing only when the pattern cannot
   * match anywhere.
   */
  function FindMatch(s: string): (r: Option<(nat, nat)>)
    ensures r.Some? ==> IsEngineMatch(s, r.value.0, r.value.1)
    ensures r.None? ==> forall p, e :: !PatternAt(s, p, e)
    ensures r.Some? <==> HasNumber(s)
  {
    match LastMarker(s, |s|)
    case None =>
      assert forall p, e :: PatternAt(s, p, e) ==> MarkerAt(s, p) by {
        forall p, e | PatternAt(s, p, e) ensures MarkerAt(s, p) {
          DigitInside(s, p, e, p + 1);
        }
      }
      None
    case Some(p) =>
      var e := DigitRunEnd(s, p + 1);
      assert PatternAt(s, p, e);
      assert forall p', e' :: 0 <= p' < p ==> !PatternAt(s, p', e') by {
        forall p', e' | 0 <= p' < p && PatternAt(s, p', e') ensures false {
          if p < e' {
            DigitInside(s, p', e', p);
          }
        }
      }
      assert forall e' :: e < e' ==> !PatternAt(s, p, e') by {
        forall e' | e < e' && PatternAt(s, p, e') ensures false {
          DigitInside(s, p, e', e);
        }
      }
      Some((p, e))
  }

  /** The engine's match is unique, so whenever it exists the scan finds it. */
  lemma EngineMatchIsFound(s: string)
    ensures forall p, e :: IsEngineMatch(s, p, e) ==> FindMatch(s) == Some((p, e))
  {
    forall p, e | IsEngineMatch(s, p, e) ensures FindMatch(s) == Some((p, e)) {
      var r := FindMatch(s);
      assert r.Some?;
      var (p0, e0) := r.value;
      assert !(p0 < p) && !(p < p0);
      assert !(e0 < e) && !(e < e0);
    }
  }

  /** A `Match`: whether it succeeded and its groups (0: whole match, 1: the digits). */
  datatype Match = Match(success: bool, groups: seq<string>)

  /** `Regex.Match(input, @"_(\d+)(?!.*_\d+)")`. */
  function RegexMatch(input: string): (m: Match)
    ensures |m.groups| == 2
    ensures m.success <==> HasNumber(input)
    ensures m.success ==> |m.groups[1]| > 0 && AllDigits(m.groups[1])
    ensures m.success ==> m.groups[0] == "_" + m.groups[1]
    ensures forall p, e :: IsEngineMatch(input, p, e) ==> m.groups == [input[p..e], input[p + 1..e]]
  {
    EngineMatchIsFound(input);
    match FindMatch(input)
    case None => Match(false, ["", ""])
    case Some((p, e)) =>
      assert input[p..e] == "_" + input[p + 1..e];
      Match(true, [input[p..e], input[p + 1..e]])
  }

  function DigitValue(c: char): nat
    requires IsDigit(c)
  {
    c as int - '0' as int
  }

  function DigitChar(d: nat): (c: char)
    requires d < 10
    ensures IsDigit(c) && DigitValue(c) == d
  {
    ('0' as int + d) as char
  }

  /**
   * `int.Parse` on a run of ASCII digits: the decimal value, most significant
   * digit first. Values beyond 32 bits are not cut off here.
   */
  function ParseDigits(ds: string): nat
    requires AllDigits(ds)
  {
    if ds == [] then 0
    else ParseDigits(ds[..|ds| - 1]) * 10 + DigitValue(ds[|ds| - 1])
  }

  /** Leading zeros do not change the parsed value. */
  lemma {:induction false} LeadingZeroIgnored(ds: string)
    requires AllDigits(ds)
    ensures AllDigits("0" + ds)
    ensures ParseDigits("0" + ds) == ParseDigits(ds)
  {
    assert AllDigits("0" + ds) by {
      forall i | 0 <= i < |"0" + ds| ensures IsDigit(("0" + ds)[i]) {
        if i > 0 { assert ("0" + ds)[i] == ds[i - 1]; }
      }
    }
    if ds != [] {
      var init := ds[..|ds| - 1];
      assert ("0" + ds)[..|"0" + ds| - 1] == "0" + init;
      LeadingZeroIgnored(init);
    }
  }

  /** `int.ToString()` on a non-negative value: its decimal digits, no leading zero. */
  function IntToString(n: nat): (s: string)
    ensures |s| > 0 && AllDigits(s)
    ensures ParseDigits(s) == n
    ensures n > 0 ==> s[0] != '0'
    decreases n
  {
    if n < 10 then [DigitChar(n)]
    else
      var s := IntToString(n / 10) + [DigitChar(n % 10)];
      assert s[..|s| - 1] == IntToString(n / 10);
      s
  }

  /** `int.CompareTo`: -1, 0 or 1 as `a` is below, equal to or above `b`. */
  function CompareTo(a: int, b: int): (r: int)
    ensures -1 <= r <= 1
    ensures r < 0 <==> a < b
    ensures r == 0 <==> a == b
  {
    if a < b then -1 else if a > b then 1 else 0
  }

  /** Position `t` of `stem + sep + tail` lies in `tail`: markers there are the tail's own. */
  lemma MarkerInTail(stem: string, tail: string, t: int)
    requires |stem| <= t
    ensures MarkerAt(stem + tail, t) <==> MarkerAt(tail, t - |stem|)
  {
    var s := stem + tail;
    if t + 1 < |s| {
      assert s[t] == tail[t - |stem|] && s[t + 1] == tail[t - |stem| + 1];
    }
  }

  /**
   * A name that ends in `_` + digits + a tail that neither starts with a digit
   * nor contains `_\d`: the match is that underscore and that whole digit run,
   * whatever the stem before it holds.
   */
  lemma {:induction false} FindMatchOfSuffix(stem: string, ds: string, tail: string)
    requires |ds| > 0 && AllDigits(ds)
    requires tail == [] || !IsDigit(tail[0])
    requires forall t :: 0 <= t < |tail| ==> !MarkerAt(tail, t)
    ensures FindMatch(stem + "_" + ds + tail) == Some((|stem|, |stem| + 1 + |ds|))
    ensures (stem + "_" + ds + tail)[|stem| + 1..|stem| + 1 + |ds|] == ds
  {
    var s := stem + "_" + ds + tail;
    var p, e := |stem|, |stem| + 1 + |ds|;
    assert s == (stem + "_" + ds) + tail;
    assert s[p + 1..e] == ds;
    assert MarkerAt(s, p) by { assert s[p + 1] == ds[0]; }
    forall t | e <= t < |s| ensures !MarkerAt(s, t) {
      MarkerInTail(stem + "_" + ds, tail, t);
    }
    assert PatternAt(s, p, e);
    forall p', e' | 0 <= p' < p && PatternAt(s, p', e') ensures false {
      if p < e' {
        DigitInside(s, p', e', p);
      }
    }
    forall e' | e < e' && PatternAt(s, p, e') ensures false {
      assert s[e] == tail[0];
      DigitInside(s, p, e', e);
    }
    assert IsEngineMatch(s, p, e);
    EngineMatchIsFound(s);
  }
}
