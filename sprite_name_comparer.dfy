/**
 * `SpriteNameComparer`: the same ordering as `ExtractedSpriteNumberComparer`,
 * written with the same pattern but reading the capture as `Groups[1]`.
 */
module SpriteNameComparer {
  import opened SpriteNumberPattern
  import ExtractedSpriteNumberComparer

  /** The frame number of a sprite name, or -1 when it has none. */
  function ExtractNumber(input: string): (n: int)
    ensures n >= -1
    ensures n == -1 <==> !HasNumber(input)
    ensures forall p, e :: IsEngineMatch(input, p, e) ==> n == ParseDigits(input[p + 1..e])
  {
    var m := RegexMatch(input);
    if m.success then ParseDigits(m.groups[1]) else -1
  }

  /** `IComparer<string>.Compare`: the frame numbers' `CompareTo`. */
  function Compare(x: string, y: string): (r: int)
    ensures -1 <= r <= 1
    ensures r < 0 <==> ExtractNumber(x) < ExtractNumber(y)
    ensures r == 0 <==> ExtractNumber(x) == ExtractNumber(y)
  {
    CompareTo(ExtractNumber(x), ExtractNumber(y))
  }

  /**
   * The two comparers agree on every pair of names: the pattern has exactly one
   * capture group, so `Groups[1]` and `Groups[^1]` are the same group.
   */
  lemma AgreesWithExtractedSpriteNumberComparer(x: string, y: string)
    ensures ExtractNumber(x) == ExtractedSpriteNumberComparer.ExtractNumber(x)
    ensures Compare(x, y) == ExtractedSpriteNumberComparer.Compare(x, y)
  {
    assert |RegexMatch(x).groups| - 1 == 1;
    assert |RegexMatch(y).groups| - 1 == 1;
  }

  /** Hence `Compare` is a total preorder too. */
  lemma CompareIsTotalPreorder()
    ensures forall x :: Compare(x, x) == 0
    ensures forall x, y :: Compare(x, y) == -Compare(y, x)
    ensures forall x, y, z :: Compare(x, y) <= 0 && Compare(y, z) <= 0 ==> Compare(x, z) <= 0
    ensures forall x, y :: Compare(x, y) <= 0 || Compare(y, x) <= 0
  {
    forall x, y ensures Compare(x, y) == ExtractedSpriteNumberComparer.Compare(x, y) {
      AgreesWithExtractedSpriteNumberComparer(x, y);
    }
    ExtractedSpriteNumberComparer.CompareIsTotalPreorder();
  }

  /** Names without a number tie with each other and come before every numbered name. */
  lemma UnnumberedNamesFirst(x: string, y: string)
    requires !HasNumber(x)
    ensures !HasNumber(y) ==> Compare(x, y) == 0
    ensures HasNumber(y) ==> Compare(x, y) < 0
  {
  }
}
