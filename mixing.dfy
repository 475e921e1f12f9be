/**
 * The lab's mixing engine: colour blending at a fixed weight and the
 * first-match table that picks the sommelier's message for a mix.
 */
module Mixing {
  import Colour
  import Reals

  /** One channel of `blendColors`: `a * (1 - weight) + b * weight`. */
  function BlendChannel(a: int, b: int, weight: real): (c: real)
    ensures weight == 0.0 ==> c == a as real
    ensures weight == 1.0 ==> c == b as real
  {
    a as real * (1.0 - weight) + b as real * weight
  }

  /** `blendColors(hexA, hexB, weight)`: blend channel by channel, then print. */
  function BlendColors(hexA: string, hexB: string, weight: real): (s: string)
    ensures Colour.IsLowerHexColour(s)
  {
    var c1 := Colour.HexToRgb(hexA);
    var c2 := Colour.HexToRgb(hexB);
    Colour.RgbToHex(BlendChannel(c1.r, c2.r, weight), BlendChannel(c1.g, c2.g, weight), BlendChannel(c1.b, c2.b, weight))
  }

  predicate Between(lo: int, hi: int, x: int) {
    (lo <= x <= hi) || (hi <= x <= lo)
  }

  /** A channel blended at a weight in [0, 1] and rounded stays between the two input channels. */
  lemma BlendChannelBetween(a: int, b: int, w: real)
    requires 0 <= a < 256 && 0 <= b < 256 && 0.0 <= w <= 1.0
    ensures Between(a, b, Colour.ChannelByte(BlendChannel(a, b, w)))
  {
    var x := BlendChannel(a, b, w);
    var ar, br := a as real, b as real;
    assert ar * (1.0 - w) == ar - ar * w;
    assert (br - ar) * w == br * w - ar * w;
    assert x == ar + (br - ar) * w;
    Reals.StepWithin(ar, br, w);
    var n := Colour.ChannelByte(x);
    assert x - 0.5 < n as real <= x + 0.5;
  }

  /**
   * The blend is recency-weighted, not an average: each channel of the result
   * lies between the corresponding channels of the two colours.
   */
  lemma BlendStaysBetween(hexA: string, hexB: string, w: real)
    requires 0.0 <= w <= 1.0
    ensures var c1, c2, c := Colour.HexToRgb(hexA), Colour.HexToRgb(hexB), Colour.HexToRgb(BlendColors(hexA, hexB, w));
      Between(c1.r, c2.r, c.r) && Between(c1.g, c2.g, c.g) && Between(c1.b, c2.b, c.b)
  {
    var c1, c2 := Colour.HexToRgb(hexA), Colour.HexToRgb(hexB);
    Colour.RgbRoundTrip(BlendChannel(c1.r, c2.r, w), BlendChannel(c1.g, c2.g, w), BlendChannel(c1.b, c2.b, w));
    BlendChannelBetween(c1.r, c2.r, w);
    BlendChannelBetween(c1.g, c2.g, w);
    BlendChannelBetween(c1.b, c2.b, w);
  }

  /** Weight 0 keeps the first colour and weight 1 takes the second, both lower-cased. */
  lemma BlendEndpoints(hexA: string, hexB: string)
    requires Colour.IsHexColour(hexA) && Colour.IsHexColour(hexB)
    ensures BlendColors(hexA, hexB, 0.0) == Colour.LowerAscii(hexA)
    ensures BlendColors(hexA, hexB, 1.0) == Colour.LowerAscii(hexB)
  {
    var c1, c2 := Colour.HexToRgb(hexA), Colour.HexToRgb(hexB);
    assert BlendChannel(c1.r, c2.r, 0.0) == c1.r as real && BlendChannel(c1.r, c2.r, 1.0) == c2.r as real;
    assert BlendChannel(c1.g, c2.g, 0.0) == c1.g as real && BlendChannel(c1.g, c2.g, 1.0) == c2.g as real;
    assert BlendChannel(c1.b, c2.b, 0.0) == c1.b as real && BlendChannel(c1.b, c2.b, 1.0) == c2.b as real;
    Colour.HexRoundTrip(hexA);
    Colour.HexRoundTrip(hexB);
  }

  /** White blended toward black at 0.35 keeps 65% of 255 per channel, 165.75, printed as `a6`. */
  lemma WhiteTowardBlack()
    ensures BlendColors("#ffffff", "#000000", 0.35) == "#a6a6a6"
  {
    WhiteAndBlack();
    var x := BlendChannel(255, 0, 0.35);
    ChannelA6();
    assert BlendColors("#ffffff", "#000000", 0.35) == Colour.RgbToHex(x, x, x);
    assert Colour.RgbToHex(x, x, x) == "#" + "a6" + "a6" + "a6";
  }

  lemma WhiteAndBlack()
    ensures Colour.HexToRgb("#ffffff") == Colour.Rgb(255, 255, 255)
    ensures Colour.HexToRgb("#000000") == Colour.Rgb(0, 0, 0)
  {
    Colour.HexToRgbReadsPairs("#ffffff");
    Colour.HexToRgbReadsPairs("#000000");
  }

  /** 65% of 255 is 165.75, which rounds to 166, printed `a6`. */
  lemma ChannelA6()
    ensures Colour.ByteHex(Colour.ChannelByte(BlendChannel(255, 0, 0.35))) == "a6"
  {
    assert BlendChannel(255, 0, 0.35) == 165.75;
    assert Colour.ChannelByte(165.75) == 166;
  }

  /** White blended toward charcoal's `#111111` at 0.35: 165.75 + 5.95 = 171.7 per channel, printed as `ac`. */
  lemma WhiteTowardCharcoal()
    ensures BlendColors("#ffffff", "#111111", 0.35) == "#acacac"
  {
    WhiteAndCharcoal();
    var x := BlendChannel(255, 17, 0.35);
    ChannelAc();
    assert BlendColors("#ffffff", "#111111", 0.35) == Colour.RgbToHex(x, x, x);
    assert Colour.RgbToHex(x, x, x) == "#" + "ac" + "ac" + "ac";
  }

  lemma WhiteAndCharcoal()
    ensures Colour.HexToRgb("#ffffff") == Colour.Rgb(255, 255, 255)
    ensures Colour.HexToRgb("#111111") == Colour.Rgb(17, 17, 17)
  {
    Colour.HexToRgbReadsPairs("#ffffff");
    Colour.HexToRgbReadsPairs("#111111");
  }

  /** 171.7 rounds to 172, printed `ac`. */
  lemma ChannelAc()
    ensures Colour.ByteHex(Colour.ChannelByte(BlendChannel(255, 17, 0.35))) == "ac"
  {
    assert BlendChannel(255, 17, 0.35) == 171.7;
    assert Colour.ChannelByte(171.7) == 172;
  }

  // ---------------------------------------------------------------------------
  // getMessageForMix
  // ---------------------------------------------------------------------------

  const BoldChoice := "Bold choice. Scientifically a powerhouse. Visually? Swamp chic."
  const MidnightBlend := "Dark and mysterious. The midnight blend."
  const GreenFire := "Green fire. Your gut will thank you."
  const SmokyGold := "Smoky gold. Unconventional. We approve."
  const ThreeWayFusion := "Three-way fusion. The lab is impressed."
  const CharcoalNote := "Charcoal. Detox vibes. Proceed with confidence."
  const BeetNote := "Beet. Earthy and bold. Blood of the earth."
  const KaleNote := "Kale. Green royalty. You know what you're doing."
  const GingerNote := "Ginger. Spice and everything nice."
  const KeepGoing := "Interesting. Keep going."

  /** Whether one of the four pair rules applies to the ingredients `all`. */
  predicate PairRuleApplies(all: seq<string>) {
    ("beet" in all && "kale" in all) || ("beet" in all && "charcoal" in all)
    || ("ginger" in all && "kale" in all) || ("charcoal" in all && "ginger" in all)
  }

  predicate IsKnownIngredient(id: string) {
    id == "charcoal" || id == "beet" || id == "kale" || id == "ginger"
  }

  /**
   * `getMessageForMix(added, newId)`: the first rule that holds for
   * `added + [newId]`, in the order beet+kale, beet+charcoal, ginger+kale,
   * charcoal+ginger, three or more items, the new id's own text, fallback.
   */
  function GetMessageForMix(added: seq<string>, newId: string): (msg: string)
    // the first pair rule wins whenever it holds, and only then
    ensures var all := added + [newId]; msg == BoldChoice <==> "beet" in all && "kale" in all
    // any pair beats the count rule and the single-ingredient texts
    ensures PairRuleApplies(added + [newId]) ==> msg in {BoldChoice, MidnightBlend, GreenFire, SmokyGold}
    ensures !PairRuleApplies(added + [newId]) && |added| + 1 >= 3 ==> msg == ThreeWayFusion
    // the new id's own text only for a short mix with no pair
    ensures msg in {CharcoalNote, BeetNote, KaleNote, GingerNote} <==>
              !PairRuleApplies(added + [newId]) && |added| < 2 && IsKnownIngredient(newId)
    ensures msg == KeepGoing <==> !PairRuleApplies(added + [newId]) && |added| < 2 && !IsKnownIngredient(newId)
    // the later pair rules, each only when every earlier rule fails
    ensures var all := added + [newId];
      msg == MidnightBlend <==> !("kale" in all) && "beet" in all && "charcoal" in all
    ensures var all := added + [newId];
      msg == GreenFire <==> !("beet" in all) && "ginger" in all && "kale" in all
    ensures var all := added + [newId];
      msg == SmokyGold <==> !("beet" in all) && !("kale" in all) && "charcoal" in all && "ginger" in all
    ensures msg == ThreeWayFusion <==> !PairRuleApplies(added + [newId]) && |added| + 1 >= 3
    // each known ingredient's own note, for a short mix with no pair
    ensures msg == CharcoalNote <==> !PairRuleApplies(added + [newId]) && |added| < 2 && newId == "charcoal"
    ensures msg == BeetNote <==> !PairRuleApplies(added + [newId]) && |added| < 2 && newId == "beet"
    ensures msg == KaleNote <==> !PairRuleApplies(added + [newId]) && |added| < 2 && newId == "kale"
    ensures msg == GingerNote <==> !PairRuleApplies(added + [newId]) && |added| < 2 && newId == "ginger"
  {
    var all := added + [newId];
    var hasBeet := "beet" in all;
    var hasKale := "kale" in all;
    var hasGinger := "ginger" in all;
    var hasCharcoal := "charcoal" in all;
    if hasBeet && hasKale then BoldChoice
    else if hasBeet && hasCharcoal then MidnightBlend
    else if hasGinger && hasKale then GreenFire
    else if hasCharcoal && hasGinger then SmokyGold
    else if |all| >= 3 then ThreeWayFusion
    else if newId == "charcoal" then CharcoalNote
    else if newId == "beet" then BeetNote
    else if newId == "kale" then KaleNote
    else if newId == "ginger" then GingerNote
    else KeepGoing
  }

  /**
   * The rules look only at which ingredients are present and how many, so
   * reordering the earlier additions never changes the message.
   */
  lemma MessageIgnoresOrder(a1: seq<string>, a2: seq<string>, newId: string)
    requires multiset(a1) == multiset(a2)
    ensures GetMessageForMix(a1, newId) == GetMessageForMix(a2, newId)
  {
    assert |a1| == |multiset(a1)| == |a2|;
    forall x ensures x in a1 + [newId] <==> x in a2 + [newId] {
      assert x in a1 <==> x in multiset(a1);
      assert x in a2 <==> x in multiset(a2);
    }
  }

  /** With beet, charcoal and ginger all present, beet+charcoal is matched before charcoal+ginger. */
  lemma MidnightBeforeSmokyGold()
    ensures GetMessageForMix(["beet", "charcoal"], "ginger") == MidnightBlend
    ensures GetMessageForMix(["charcoal", "ginger"], "beet") == MidnightBlend
  {
    var a := ["beet", "charcoal"] + ["ginger"];
    assert a[0] == "beet" && a[1] == "charcoal" && a[2] == "ginger";
    assert "kale" !in a;
    var b := ["charcoal", "ginger"] + ["beet"];
    assert b[0] == "charcoal" && b[1] == "ginger" && b[2] == "beet";
    assert "kale" !in b;
  }

  /** Kale then beet, and beet then kale, both give the beet+kale message. */
  lemma BoldChoiceEitherOrder()
    ensures GetMessageForMix(["kale"], "beet") == BoldChoice
    ensures GetMessageForMix(["beet"], "kale") == BoldChoice
  {
    assert "kale" in ["kale"] + ["beet"] && "beet" in ["kale"] + ["beet"];
    assert "kale" in ["beet"] + ["kale"] && "beet" in ["beet"] + ["kale"];
  }
}
