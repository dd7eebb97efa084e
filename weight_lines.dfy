/** Column widths and the lines for single feature weights and for the
    "N more features" summaries. */
module WeightLines {
  import opened Strings
  import opened Explanations
  import opened FeatureNames

  /** The names of a sequence of weights, in order (`it[0]` of each pair). */
  function Names(ws: seq<Weight>): seq<FeatureName>
  {
    seq(|ws|, i requires 0 <= i < |ws| => ws[i].name)
  }

  /** `_maxlen`: the longest normalized name, or 0 when there is none. */
  function MaxLen(names: seq<FeatureName>, signed: SignedFormatter): nat
  {
    if |names| == 0 then 0
    else
      var here := |FormatFeature(names[0], signed)|;
      var rest := MaxLen(names[1..], signed);
      if here < rest then rest else here
  }

  /** MaxLen is 0 for no names; otherwise it bounds every normalized name's
      length and is the length of one of them. */
  lemma {:induction false} MaxLenBounds(names: seq<FeatureName>, signed: SignedFormatter)
    ensures |names| == 0 ==> MaxLen(names, signed) == 0
    ensures forall i :: 0 <= i < |names| ==> |FormatFeature(names[i], signed)| <= MaxLen(names, signed)
    ensures |names| > 0 ==>
      exists i :: 0 <= i < |names| && |FormatFeature(names[i], signed)| == MaxLen(names, signed)
  {
    if |names| > 0 {
      var rest := names[1..];
      MaxLenBounds(rest, signed);
      assert forall i :: 1 <= i < |names| ==> names[i] == rest[i - 1];
      var here := |FormatFeature(names[0], signed)|;
      if |rest| == 0 || here >= MaxLen(rest, signed) {
        assert |FormatFeature(names[0], signed)| == MaxLen(names, signed);
      } else {
        var j :| 0 <= j < |rest| && |FormatFeature(rest[j], signed)| == MaxLen(rest, signed);
        assert names[j + 1] == rest[j];
        assert |FormatFeature(names[j + 1], signed)| == MaxLen(names, signed);
      }
    }
  }

  /** `_max_feature_length`: the width one target's positive and negative names need. */
  function TargetWidth<Id>(t: Target<Id>, signed: SignedFormatter): nat
  {
    MaxLen(Names(t.weights.pos + t.weights.neg), signed)
  }

  /** `_max_feature_size`: the width shared by all targets (`max` of an empty
      sequence raises, so there is at least one target). */
  function MaxFeatureSize<Id>(targets: seq<Target<Id>>, signed: SignedFormatter): nat
    requires |targets| > 0
  {
    var here := TargetWidth(targets[0], signed);
    if |targets| == 1 then here
    else
      var rest := MaxFeatureSize(targets[1..], signed);
      if here < rest then rest else here
  }

  /** The shared width is the largest width any target needs: it bounds them all
      and one target needs exactly that much. */
  lemma {:induction false} MaxFeatureSizeBounds<Id>(targets: seq<Target<Id>>, signed: SignedFormatter)
    requires |targets| > 0
    ensures forall i :: 0 <= i < |targets| ==> TargetWidth(targets[i], signed) <= MaxFeatureSize(targets, signed)
    ensures exists i :: 0 <= i < |targets| && TargetWidth(targets[i], signed) == MaxFeatureSize(targets, signed)
  {
    if |targets| == 1 {
      assert TargetWidth(targets[0], signed) == MaxFeatureSize(targets, signed);
    } else {
      var rest := targets[1..];
      MaxFeatureSizeBounds(rest, signed);
      assert forall i :: 1 <= i < |targets| ==> targets[i] == rest[i - 1];
      var j :| 0 <= j < |rest| && TargetWidth(rest[j], signed) == MaxFeatureSize(rest, signed);
      if TargetWidth(targets[0], signed) < MaxFeatureSize(rest, signed) {
        assert TargetWidth(targets[j + 1], signed) == MaxFeatureSize(targets, signed);
      } else {
        assert TargetWidth(targets[0], signed) == MaxFeatureSize(targets, signed);
      }
    }
  }

  /** Every positive or negative name of every target fits in the shared width. */
  lemma SharedWidthCovers<Id>(targets: seq<Target<Id>>, signed: SignedFormatter, k: nat, w: Weight)
    requires k < |targets|
    requires w in targets[k].weights.pos + targets[k].weights.neg
    ensures |FormatFeature(w.name, signed)| <= MaxFeatureSize(targets, signed)
  {
    var ws := targets[k].weights.pos + targets[k].weights.neg;
    var j :| 0 <= j < |ws| && ws[j] == w;
    assert Names(ws)[j] == w.name;
    MaxLenBounds(Names(ws), signed);
    MaxFeatureSizeBounds(targets, signed);
  }

  /** One line of `_format_feature_weights`: the formatted coefficient, two
      spaces, then the normalized name padded with spaces to the width `sz`. */
  function WeightLine(w: Weight, sz: int, signed: SignedFormatter, weight8: real -> string): string
  {
    weight8(w.coef) + "  " + LJust(FormatFeature(w.name, signed), sz)
  }

  /** The two columns of a weight line: the formatted coefficient and two spaces,
      then the normalized name followed by spaces up to `sz` (never cut when the
      name is longer). */
  lemma WeightLineShape(w: Weight, sz: int, signed: SignedFormatter, weight8: real -> string)
    ensures var r := WeightLine(w, sz, signed, weight8);
      var head := weight8(w.coef) + "  ";
      var name := FormatFeature(w.name, signed);
      && |r| == |head| + Max(sz, |name|)
      && r[..|head|] == head
      && r[|head|..][..|name|] == name
      && AllSpaces(r[|head| + |name|..])
  {
    var head := weight8(w.coef) + "  ";
    var seg := LJust(FormatFeature(w.name, signed), sz);
    assert (head + seg)[|head|..] == seg;
  }

  /** `_format_feature_weights`: one line per pair, in the given order. */
  function FormatFeatureWeights(ws: seq<Weight>, sz: int, signed: SignedFormatter, weight8: real -> string): (r: seq<string>)
    ensures |r| == |ws|
    ensures forall i :: 0 <= i < |ws| ==> r[i] == WeightLine(ws[i], sz, signed, weight8)
    ensures forall i :: 0 <= i < |ws| ==>
      |r[i]| == |weight8(ws[i].coef)| + 2 + Max(sz, |FormatFeature(ws[i].name, signed)|)
  {
    seq(|ws|, i requires 0 <= i < |ws| => WeightLine(ws[i], sz, signed, weight8))
  }

  /** Rendering the reversed pairs gives the lines of the pairs from last to first. */
  lemma ReversedWeightLines(ws: seq<Weight>, sz: int, signed: SignedFormatter, weight8: real -> string)
    ensures var r := FormatFeatureWeights(Reverse(ws), sz, signed, weight8);
      |r| == |ws| && forall i :: 0 <= i < |ws| ==> r[i] == WeightLine(ws[|ws| - 1 - i], sz, signed, weight8)
  {
  }

  /** When no name is longer than `sz`, every line's name column is exactly `sz`
      wide: the names all start at the same offset after the coefficient and end
      at the same offset after it. With `sz` the MaxLen of the names this always holds. */
  lemma WeightLinesAligned(ws: seq<Weight>, sz: int, signed: SignedFormatter, weight8: real -> string)
    requires forall i :: 0 <= i < |ws| ==> |FormatFeature(ws[i].name, signed)| <= sz
    ensures forall i :: 0 <= i < |ws| ==>
      |FormatFeatureWeights(ws, sz, signed, weight8)[i]| == |weight8(ws[i].coef)| + 2 + sz
  {
  }

  /** The lines of a block rendered at its own MaxLen all have name columns of that width. */
  lemma MaxLenAligns(ws: seq<Weight>, signed: SignedFormatter, weight8: real -> string)
    ensures var sz := MaxLen(Names(ws), signed);
      forall i :: 0 <= i < |ws| ==>
        |FormatFeatureWeights(ws, sz, signed, weight8)[i]| == |weight8(ws[i].coef)| + 2 + sz
  {
    var sz := MaxLen(Names(ws), signed);
    MaxLenBounds(Names(ws), signed);
    assert forall i :: 0 <= i < |ws| ==> |FormatFeature(ws[i].name, signed)| <= sz by {
      forall i | 0 <= i < |ws| ensures |FormatFeature(ws[i].name, signed)| <= sz {
        assert Names(ws)[i] == ws[i].name;
      }
    }
    WeightLinesAligned(ws, sz, signed, weight8);
  }

  /** `_format_remaining`. */
  function FormatRemaining(remaining: int, kind: string): string
  {
    RJust(Ellipsis, 8) + "  (" + Decimal(remaining) + " more " + kind + " features)"
  }

  /** The summary line is the ellipsis right-justified to 8 columns (seven spaces
      and the glyph), two spaces, then `(N more KIND features)` with N in decimal. */
  lemma RemainingShape(remaining: int, kind: string)
    ensures FormatRemaining(remaining, kind)
            == "       " + Ellipsis + "  (" + Decimal(remaining) + " more " + kind + " features)"
  {
    var e := RJust(Ellipsis, 8);
    assert |e| == 8 && e[7..] == Ellipsis && AllSpaces(e[..7]);
    assert e[..7] == "       ";
    assert e == e[..7] + e[7..];
  }

  /** Three omitted negative features give `       …  (3 more negative features)`. */
  lemma RemainingExample()
    ensures FormatRemaining(3, "negative") == "       …  (3 more negative features)"
  {
    RemainingShape(3, "negative");
    assert Decimal(3) == "3";
  }
}
