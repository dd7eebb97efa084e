/** Feature-name normalization: turning any of the three forms of a feature
    name into the one string that is displayed and measured for alignment. */
module FeatureNames {
  import opened Strings
  import opened Explanations

  /** `_format_single_feature`: `replace_spaces` with a replacer that writes one
      placeholder glyph per space, so every space becomes the glyph and nothing
      else changes. */
  function FormatSingleFeature(s: string): (r: string)
    ensures |r| == |s|
    ensures forall i :: 0 <= i < |s| ==> r[i] == (if s[i] == ' ' then SpaceGlyph else s[i])
  {
    if s == [] then [] else [if s[0] == ' ' then SpaceGlyph else s[0]] + FormatSingleFeature(s[1..])
  }

  /** Maps the placeholder glyph back to a space: the inverse of FormatSingleFeature. */
  function RestoreSpaces(s: string): (r: string)
    ensures |r| == |s|
    ensures forall i :: 0 <= i < |s| ==> r[i] == (if s[i] == SpaceGlyph then ' ' else s[i])
  {
    if s == [] then [] else [if s[0] == SpaceGlyph then ' ' else s[0]] + RestoreSpaces(s[1..])
  }

  /** A name that does not already hold the glyph is recovered from its display form,
      and no space is left in the display form. */
  lemma SingleFeatureRoundTrip(s: string)
    requires SpaceGlyph !in s
    ensures RestoreSpaces(FormatSingleFeature(s)) == s
    ensures ' ' !in FormatSingleFeature(s)
  {
    var d := FormatSingleFeature(s);
    assert forall i :: 0 <= i < |s| ==> RestoreSpaces(d)[i] == s[i] by {
      forall i | 0 <= i < |s| ensures RestoreSpaces(d)[i] == s[i] {
        assert s[i] != SpaceGlyph by { assert s[i] in s; }
      }
    }
    assert forall i :: 0 <= i < |d| ==> d[i] != ' ';
  }

  /** The signed form of each entry of a hashed name, in entry order. */
  function SignedParts(entries: seq<HashedEntry>, signed: SignedFormatter): (r: seq<string>)
    ensures |r| == |entries|
  {
    seq(|entries|, i requires 0 <= i < |entries| => signed(entries[i], FormatSingleFeature))
  }

  /** `_format_unhashed_feature` with its default separator. */
  function FormatUnhashedFeature(entries: seq<HashedEntry>, signed: SignedFormatter): string
  {
    Join(SignedParts(entries, signed), " | ")
  }

  /** `_format_feature`: dispatch on the form of the name. */
  function FormatFeature(name: FeatureName, signed: SignedFormatter): string
  {
    match name
    case Formatted(text) => text
    case Hashed(entries) => FormatUnhashedFeature(entries, signed)
    case Plain(s) => FormatSingleFeature(s)
  }

  /** A hashed name of k entries is its k signed parts with k - 1 separators
      between them: nothing for no entries, the part alone for one, and the first
      part, a separator and the rest otherwise. */
  lemma UnhashedShape(entries: seq<HashedEntry>, signed: SignedFormatter)
    ensures var parts := SignedParts(entries, signed);
      var r := FormatUnhashedFeature(entries, signed);
      && (|entries| == 0 ==> r == "")
      && (|entries| == 1 ==> r == parts[0])
      && (|entries| > 1 ==> r == parts[0] + " | " + FormatUnhashedFeature(entries[1..], signed))
      && (|entries| > 0 ==> |r| == SumLen(parts) + 3 * (|entries| - 1))
  {
    var parts := SignedParts(entries, signed);
    if |entries| > 0 {
      JoinLength(parts, " | ");
    }
    if |entries| > 1 {
      assert parts[1..] == SignedParts(entries[1..], signed);
    }
  }

  /** A sample signed formatter that writes `+` or `-` before the inner name. It
      stands in for `format_signed`, which is not part of this model: the
      prefixes the real formatter writes are not modelled. */
  function SignPrefixed(e: HashedEntry, inner: string -> string): string
  {
    (if e.sign > 0 then "+" else "-") + inner(e.name)
  }

  /** A name without spaces displays as it is. */
  lemma SingleFeatureNoSpaces(s: string)
    requires ' ' !in s
    ensures FormatSingleFeature(s) == s
  {
    assert forall i :: 0 <= i < |s| ==> s[i] != ' ' by {
      forall i | 0 <= i < |s| ensures s[i] != ' ' { assert s[i] in s; }
    }
  }

  /** The hashed bucket {x, +1}, {y, -1} displays as `+x | -y` under that formatter. */
  lemma HashedExample()
    ensures FormatFeature(Hashed([HashedEntry("x", 1), HashedEntry("y", -1)]), SignPrefixed) == "+x | -y"
  {
    var entries := [HashedEntry("x", 1), HashedEntry("y", -1)];
    SingleFeatureNoSpaces("x");
    SingleFeatureNoSpaces("y");
    var parts := SignedParts(entries, SignPrefixed);
    assert parts[0] == SignPrefixed(entries[0], FormatSingleFeature) == "+" + FormatSingleFeature("x");
    assert parts[1] == SignPrefixed(entries[1], FormatSingleFeature) == "-" + FormatSingleFeature("y");
    assert Join(parts[1..], " | ") == "-y";
  }

  /** Normalization of a pre-formatted name is the identity, and a plain name keeps its length. */
  lemma FormatFeatureCases(name: FeatureName, signed: SignedFormatter)
    ensures name.Formatted? ==> FormatFeature(name, signed) == name.text
    ensures name.Plain? ==> |FormatFeature(name, signed)| == |name.name|
    ensures name.Plain? ==> ' ' !in FormatFeature(name, signed)
    ensures name.Hashed? ==> FormatFeature(name, signed) == Join(SignedParts(name.entries, signed), " | ")
  {
    if name.Plain? {
      var d := FormatSingleFeature(name.name);
      assert forall i :: 0 <= i < |d| ==> d[i] != ' ';
    }
  }
}
