/**
 * Highlight colours for country codes (src/utils/countryColors.ts): a
 * module-level memo table and counter hand out the palette's entries in
 * order; once all twenty are used, a string hash whose shift is 32-bit picks one.
 */
module CountryColors {

  const Palette: seq<string> := [
    "#FF6B6B", "#FFD93D", "#6BCB77", "#4D96FF", "#FF922B",
    "#845EC2", "#FFC75F", "#0081CF", "#B0A8B9", "#F9F871",
    "#F76E11", "#A3C9A8", "#F24C4C", "#43AA8B", "#3A86FF",
    "#FFB4A2", "#B5838D", "#6D6875", "#FFBE0B", "#8338EC"
  ]

  const TwoTo32: int := 0x1_0000_0000
  const TwoTo31: int := 0x8000_0000

  /** ECMAScript ToInt32 on an integral number: the value modulo 2^32, read as signed. */
  function ToInt32(x: int): (r: int)
    ensures -TwoTo31 <= r < TwoTo31
    ensures (x - r) % TwoTo32 == 0
  {
    var m := x % TwoTo32;
    if m >= TwoTo31 then m - TwoTo32 else m
  }

  /** `h << 5`: the left operand goes through ToInt32, the 32-bit result is read as signed. */
  function ShiftLeft5(h: int): (r: int)
    ensures -TwoTo31 <= r < TwoTo31
    ensures (32 * h - r) % TwoTo32 == 0
  {
    var r := ToInt32(ToInt32(h) * 32);
    assert (32 * h - r) % TwoTo32 == 0 by {
      var a := ToInt32(h);
      var q := (h - a) / TwoTo32;
      var p := (32 * a - r) / TwoTo32;
      assert 32 * h - r == (32 * q + p) * TwoTo32;
      MultipleMod(32 * q + p);
    }
    r
  }

  lemma MultipleMod(k: int)
    ensures (k * TwoTo32) % TwoTo32 == 0
  {
  }

  /** One turn of the hash loop: `hash = code + ((hash << 5) - hash)`. */
  function HashStep(hash: int, c: char): int
  {
    c as int + (ShiftLeft5(hash) - hash)
  }

  /** The hash after the loop has consumed all of `s`, starting from 0. */
  function StringHash(s: string): int
    decreases |s|
  {
    if |s| == 0 then 0 else HashStep(StringHash(s[..|s| - 1]), s[|s| - 1])
  }

  /** The largest amount by which one character can move the hash. */
  const StepBound: int := TwoTo31 + 0x11_0000

  /**
   * The hash grows at most linearly with the length, so for any code shorter than
   * 2^21 characters it stays below 2^53 and a double holds it exactly.
   */
  lemma {:induction false} StringHashBounded(s: string)
    ensures -|s| * StepBound <= StringHash(s) <= |s| * StepBound
    decreases |s|
  {
    if |s| > 0 {
      StringHashBounded(s[..|s| - 1]);
      assert (|s| - 1) * StepBound + StepBound == |s| * StepBound;
    }
  }

  /** The hash loop of the fallback branch. */
  method Hash(iso: string) returns (hash: int)
    ensures hash == StringHash(iso)
  {
    hash := 0;
    for i := 0 to |iso|
      invariant hash == StringHash(iso[..i])
    {
      assert iso[..i + 1][..i] == iso[..i];
      hash := iso[i] as int + (ShiftLeft5(hash) - hash);
    }
    assert iso[..|iso|] == iso;
  }

  /** `Math.abs(hash) % palette.length`. */
  function HashIndex(iso: string): (k: int)
    ensures 0 <= k < |Palette|
  {
    var h := StringHash(iso);
    (if h < 0 then -h else h) % |Palette|
  }

  /** The module's memo table and counter. */
  class ColorTable {
    var isoToPaletteIndex: map<string, int>
    var paletteIndex: int

    ghost predicate Valid()
      reads this
    {
      0 <= paletteIndex <= |Palette| &&
      forall iso <- isoToPaletteIndex :: 0 <= isoToPaletteIndex[iso] < |Palette|
    }

    /** `isoToPaletteIndex[iso]` is truthy: present and not 0. */
    predicate IsAssigned(iso: string)
      reads this
    {
      iso in isoToPaletteIndex && isoToPaletteIndex[iso] != 0
    }

    constructor ()
      ensures Valid()
      ensures isoToPaletteIndex == map[] && paletteIndex == 0
    {
      isoToPaletteIndex := map[];
      paletteIndex := 0;
    }

    /** `getCountryColor`, as written: a stored index of 0 counts as unassigned. */
    method GetCountryColor(iso: string) returns (colour: string)
      requires Valid()
      modifies this
      ensures Valid()
      ensures colour in Palette
      ensures iso in isoToPaletteIndex && colour == Palette[isoToPaletteIndex[iso]]
      ensures old(IsAssigned(iso)) ==>
        isoToPaletteIndex == old(isoToPaletteIndex) && paletteIndex == old(paletteIndex)
      ensures !old(IsAssigned(iso)) && old(paletteIndex) < |Palette| ==>
        isoToPaletteIndex == old(isoToPaletteIndex)[iso := old(paletteIndex)] &&
        paletteIndex == old(paletteIndex) + 1
      ensures !old(IsAssigned(iso)) && old(paletteIndex) >= |Palette| ==>
        isoToPaletteIndex == old(isoToPaletteIndex)[iso := HashIndex(iso)] &&
        paletteIndex == old(paletteIndex)
    {
      if !IsAssigned(iso) {
        if paletteIndex < |Palette| {
          isoToPaletteIndex := isoToPaletteIndex[iso := paletteIndex];
          paletteIndex := paletteIndex + 1;
        } else {
          var hash := Hash(iso);
          isoToPaletteIndex := isoToPaletteIndex[iso := (if hash < 0 then -hash else hash) % |Palette|];
        }
      }
      colour := Palette[isoToPaletteIndex[iso]];
    }

    /** The same lookup with the memo test the table evidently intends: presence, not truthiness. */
    method GetCountryColorStable(iso: string) returns (colour: string)
      requires Valid()
      modifies this
      ensures Valid()
      ensures colour in Palette
      ensures iso in isoToPaletteIndex && colour == Palette[isoToPaletteIndex[iso]]
      ensures iso in old(isoToPaletteIndex) ==>
        colour == Palette[old(isoToPaletteIndex)[iso]] &&
        isoToPaletteIndex == old(isoToPaletteIndex) && paletteIndex == old(paletteIndex)
      ensures iso !in old(isoToPaletteIndex) && old(paletteIndex) < |Palette| ==>
        isoToPaletteIndex == old(isoToPaletteIndex)[iso := old(paletteIndex)] &&
        paletteIndex == old(paletteIndex) + 1
      ensures iso !in old(isoToPaletteIndex) && old(paletteIndex) >= |Palette| ==>
        isoToPaletteIndex == old(isoToPaletteIndex)[iso := HashIndex(iso)] &&
        paletteIndex == old(paletteIndex)
    {
      if iso !in isoToPaletteIndex {
        if paletteIndex < |Palette| {
          isoToPaletteIndex := isoToPaletteIndex[iso := paletteIndex];
          paletteIndex := paletteIndex + 1;
        } else {
          var hash := Hash(iso);
          isoToPaletteIndex := isoToPaletteIndex[iso := (if hash < 0 then -hash else hash) % |Palette|];
        }
      }
      colour := Palette[isoToPaletteIndex[iso]];
    }
  }

  /** As written, the first code coloured gets the first palette entry, then the second one on its next call. */
  method FirstCodeRecoloured() returns (first: string, second: string)
    ensures first == "#FF6B6B" && second == "#FFD93D"
  {
    var table := new ColorTable();
    first := table.GetCountryColor("NLD");
    second := table.GetCountryColor("NLD");
  }

  /** With the presence test, the first code keeps its colour. */
  method FirstCodeKeepsColour() returns (first: string, second: string)
    ensures first == "#FF6B6B" && second == "#FF6B6B"
  {
    var table := new ColorTable();
    first := table.GetCountryColorStable("NLD");
    second := table.GetCountryColorStable("NLD");
  }
}
