/** The five moods the engine infers, with their display names, palettes and
    the rule that picks the dominant mood from a score table. */
module Moods {
  import opened Foundation

  datatype Mood = Joy | Calm | Anxiety | Sadness | Anger

  /** `Mood.allCases`, in declaration order. */
  function AllCases(): (s: seq<Mood>)
    ensures |s| == 5
    ensures forall i, j :: 0 <= i < j < |s| ==> s[i] != s[j]
  {
    [Joy, Calm, Anxiety, Sadness, Anger]
  }

  /** Every mood is one of the cases. */
  lemma AllCasesComplete(m: Mood)
    ensures m in AllCases()
  {
    match m
    case Joy =>
    case Calm =>
    case Anxiety =>
    case Sadness =>
    case Anger =>
  }

  /** The raw value, which is also the mood's `id` and its persisted form. */
  function RawValue(m: Mood): string
  {
    match m
    case Joy => "joy"
    case Calm => "calm"
    case Anxiety => "anxiety"
    case Sadness => "sadness"
    case Anger => "anger"
  }

  /** `Mood(rawValue:)`: the failable initializer the decoder uses. */
  function FromRawValue(s: string): (r: Option<Mood>)
    ensures r.Some? ==> RawValue(r.value) == s
  {
    if s == "joy" then Some(Joy)
    else if s == "calm" then Some(Calm)
    else if s == "anxiety" then Some(Anxiety)
    else if s == "sadness" then Some(Sadness)
    else if s == "anger" then Some(Anger)
    else None
  }

  /** Decoding an encoded mood gives it back, so raw values identify moods. */
  lemma RawValueRoundTrip(m: Mood)
    ensures FromRawValue(RawValue(m)) == Some(m)
  {
  }

  lemma RawValueInjective(m: Mood, n: Mood)
    requires RawValue(m) == RawValue(n)
    ensures m == n
  {
    RawValueRoundTrip(m);
    RawValueRoundTrip(n);
  }

  function Label(m: Mood): string
  {
    match m
    case Joy => "Joy"
    case Calm => "Calm"
    case Anxiety => "Anxiety"
    case Sadness => "Sadness"
    case Anger => "Anger"
  }

  function Icon(m: Mood): string
  {
    match m
    case Joy => "sun.max.fill"
    case Calm => "drop.fill"
    case Anxiety => "bolt.fill"
    case Sadness => "cloud.rain.fill"
    case Anger => "flame.fill"
  }

  /** No two moods share a label or an icon. */
  lemma LabelsAndIconsDistinct(m: Mood, n: Mood)
    requires m != n
    ensures Label(m) != Label(n) && Icon(m) != Icon(n)
  {
    assert Label(m)[2] != Label(n)[2];
    assert Icon(m)[0] != Icon(n)[0];
  }

  /** A colour given by its six-digit hexadecimal code. */
  datatype Color = Hex(code: string)

  /** The three-colour palette particles of this mood are drawn in. */
  function Colors(m: Mood): (c: seq<Color>)
    ensures |c| == 3
    ensures forall i :: 0 <= i < 3 ==> |c[i].code| == 6
  {
    match m
    case Joy => [Hex("D4A574"), Hex("C4956A"), Hex("E8C9A0")]
    case Calm => [Hex("8BA4B8"), Hex("A3B8C8"), Hex("C2D1DB")]
    case Anxiety => [Hex("9B8EA8"), Hex("B5A8C0"), Hex("7D7289")]
    case Sadness => [Hex("6B7B8D"), Hex("5A6A7D"), Hex("8895A3")]
    case Anger => [Hex("B07060"), Hex("C4806E"), Hex("8B5E52")]
  }

  /** The mood's representative colour: the first of its palette. */
  function PrimaryColor(m: Mood): (c: Color)
    ensures c in Colors(m)
  {
    Colors(m)[0]
  }

  /** Palettes do not overlap, so a particle's colour tells its mood. */
  lemma PalettesDisjoint(m: Mood, n: Mood, i: nat, j: nat)
    requires m != n && i < 3 && j < 3
    ensures Colors(m)[i] != Colors(n)[j]
  {
    var a, b := Colors(m)[i].code, Colors(n)[j].code;
    assert a[0] != b[0] || a[1] != b[1] || a[2] != b[2];
  }

  /** `order` lists exactly the keys of `scores`, each once: the iteration
      order of the dictionary, which the language leaves unspecified. */
  predicate IsKeyOrder(scores: map<Mood, real>, order: seq<Mood>)
  {
    (forall m :: m in scores <==> m in order) &&
    (forall i, j :: 0 <= i < j < |order| ==> order[i] != order[j])
  }

  /** Where `max(by: <)` over the non-empty `order` stops: the running best
      is replaced only by a strictly larger score, so the first maximum wins. */
  function MaxIndex(scores: map<Mood, real>, order: seq<Mood>): (k: nat)
    requires |order| > 0 && forall m :: m in order ==> m in scores
    ensures k < |order|
    ensures forall j :: 0 <= j < |order| ==> scores[order[j]] <= scores[order[k]]
    ensures forall j :: 0 <= j < k ==> scores[order[j]] < scores[order[k]]
  {
    if |order| == 1 then 0
    else
      var best := MaxIndex(scores, order[..|order| - 1]);
      if scores[order[best]] < scores[order[|order| - 1]] then |order| - 1 else best
  }

  /** `Mood.dominant(from:)`: the key with the highest score, the first
      such key in iteration order on a tie, and `.calm` for an empty table. */
  function Dominant(scores: map<Mood, real>, order: seq<Mood>): (r: Mood)
    requires IsKeyOrder(scores, order)
    ensures |scores| == 0 ==> r == Calm
    ensures |scores| > 0 ==> r in scores && forall m :: m in scores ==> scores[m] <= scores[r]
    ensures |scores| > 0 ==>
      exists k :: 0 <= k < |order| && order[k] == r && forall j :: 0 <= j < k ==> scores[order[j]] < scores[r]
  {
    if |order| == 0 then
      assert forall m :: m !in scores;
      assert scores.Keys == {};
      Calm
    else
      assert order[0] in scores;
      var k := MaxIndex(scores, order);
      assert forall m :: m in scores ==> exists j :: 0 <= j < |order| && order[j] == m;
      order[k]
  }
}
