/**
 * `ExtractedSpriteNumberComparer`: orders sprite names by the number after
 * their last `_<digits>`, the position the sprite-sheet extractor gave the
 * sprite; a name with no such number counts as -1. The number is read from
 * the LAST group of the match (`Groups[^1]`).
 */
module ExtractedSpriteNumberComparer {
  import opened SpriteNumberPattern

  /** The frame number of a sprite name, or -1 when it has none. */
  function ExtractNumber(input: string): (n: int)
    ensures n >= -1
    ensures n == -1 <==> !HasNumber(input)
    ensures forall p, e :: IsEngineMatch(input, p, e) ==> n == ParseDigits(input[p + 1..e])
  {
    var m := RegexMatch(input);
    if m.success then ParseDigits(m.groups[|m.groups| - 1]) else -1
  }

  /** `IComparer<string>.Compare`: the frame numbers' `CompareTo`. */
  function Compare(x: string, y: string): (r: int)
    ensures -1 <= r <= 1
    ensures r < 0 <==> ExtractNumber(x) < ExtractNumber(y)
    ensures r == 0 <==> ExtractNumber(x) == ExtractNumber(y)
  {
    CompareTo(ExtractNumber(x), ExtractNumber(y))
  }

  /**
   * The number is the whole digit run after the last underscore that a digit
   * follows, whatever comes before it (`s_3_10` gives 10, not 3 or 1).
   */
  lemma ExtractNumberOfSuffix(stem: string, ds: string, tail: string)
    requires |ds| > 0 && AllDigits(ds)
    requires tail == [] || !IsDigit(tail[0])
    requires forall t :: 0 <= t < |tail| ==> !MarkerAt(tail, t)
    ensures ExtractNumber(stem + "_" + ds + tail) == ParseDigits(ds)
  {
    FindMatchOfSuffix(stem, ds, tail);
  }

  /** A name that ends in its frame number. */
  lemma ExtractNumberAtEnd(stem: string, ds: string)
    requires |ds| > 0 && AllDigits(ds)
    ensures ExtractNumber(stem + "_" + ds) == ParseDigits(ds)
  {
    ExtractNumberOfSuffix(stem, ds, "");
    assert stem + "_" + ds + "" == stem + "_" + ds;
  }

  /**
   * The examples the comparer was written for, after any stem: `_3_10`
   * gives 10, `_5_b` gives 5, and a name without `_<digits>` gives -1.
   */
  lemma ExtractNumberExamples(stem: string)
    ensures ExtractNumber(stem + "_3" + "_" + "10") == 10
    ensures ExtractNumber(stem + "_" + "5" + "_b") == 5
    ensures ExtractNumber("sprite") == -1
  {
    ExtractNumberAtEnd(stem + "_3", "10");
    ExtractNumberOfSuffix(stem, "5", "_b");
    assert !HasNumber("sprite") by {
      forall p ensures !MarkerAt("sprite", p) { }
    }
  }

  /** `Compare` is a total preorder: reflexive, sign-antisymmetric, transitive and total. */
  lemma CompareIsTotalPreorder()
    ensures forall x :: Compare(x, x) == 0
    ensures forall x, y :: Compare(x, y) == -Compare(y, x)
    ensures forall x, y, z :: Compare(x, y) <= 0 && Compare(y, z) <= 0 ==> Compare(x, z) <= 0
    ensures forall x, y :: Compare(x, y) <= 0 || Compare(y, x) <= 0
  {
  }

  /** Names without a number tie with each other and come before every numbered name. */
  lemma UnnumberedNamesFirst(x: string, y: string)
    requires !HasNumber(x)
    ensures !HasNumber(y) ==> Compare(x, y) == 0
    ensures HasNumber(y) ==> Compare(x, y) < 0
  {
  }

  /** Leading zeros in the frame number do not change the order. */
  lemma LeadingZerosIgnored(stem: string, ds: string, tail: string)
    requires |ds| > 0 && AllDigits(ds)
    requires tail == [] || !IsDigit(tail[0])
    requires forall t :: 0 <= t < |tail| ==> !MarkerAt(tail, t)
    ensures Compare(stem + "_0" + ds + tail, stem + "_" + ds + tail) == 0
  {
    LeadingZeroIgnored(ds);
    ExtractNumberOfSuffix(stem, "0" + ds, tail);
    ExtractNumberOfSuffix(stem, ds, tail);
    assert (stem + "_") + "0" == stem + "_0";
    assert (stem + "_") + ("0" + ds) == (stem + "_0") + ds;
  }

  /** The order is numeric, not lexical: `_2` sorts before `_10`. */
  lemma NumericNotLexical(stem: string)
    ensures Compare(stem + "_" + "2", stem + "_" + "10") < 0
  {
    ExtractNumberAtEnd(stem, "2");
    ExtractNumberAtEnd(stem, "10");
  }
}
