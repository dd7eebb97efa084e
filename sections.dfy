/** One renderer per facet of an explanation: each gives the facet's lines. */
module Sections {
  import opened Strings
  import opened Explanations
  import opened FeatureNames
  import opened WeightLines

  /** `_error_lines` */
  function ErrorLines<Id, Tree>(e: Explanation<Id, Tree>): seq<string>
  {
    ["Error: " + Str(e.error)]
  }

  /** `_method_lines` */
  function MethodLines<Id, Tree>(e: Explanation<Id, Tree>): seq<string>
  {
    ["Explained as: " + Str(e.methodName)]
  }

  /** `_description_lines`: the description itself (a missing one would make the join fail). */
  function DescriptionLines<Id, Tree>(e: Explanation<Id, Tree>): seq<string>
    requires e.description.Some?
  {
    [e.description.value]
  }

  /** `_decision_tree_lines`: a blank line, then the tree as the tree renderer draws it. */
  function DecisionTreeLines<Id, Tree>(e: Explanation<Id, Tree>, env: Env<Id, Tree>): seq<string>
    requires e.decisionTree.Some?
  {
    ["", env.treeText(e.decisionTree.value)]
  }

  // ---------------------------------------------------------------------------
  // Scores and target headers

  /** The list `_format_scores` builds: the probability part, then the score part, each when given. */
  function ScoreParts(proba: Option<real>, score: Option<real>, fixed3: real -> string): seq<string>
  {
    (if proba.Some? then ["probability=" + fixed3(proba.value)] else [])
    + (if score.Some? then ["score=" + fixed3(score.value)] else [])
  }

  /** What `_format_scores` returns: the parts joined with a comma and a space. */
  function ScoresText(proba: Option<real>, score: Option<real>, fixed3: real -> string): string
  {
    Join(ScoreParts(proba, score, fixed3), ", ")
  }

  /** The scores text case by case: nothing when neither value is given, and the
      probability before the score, comma-separated, when both are. */
  lemma ScoresCases(proba: Option<real>, score: Option<real>, fixed3: real -> string)
    ensures var s := ScoresText(proba, score, fixed3);
      && (proba.None? && score.None? ==> s == "")
      && (proba.Some? && score.None? ==> s == "probability=" + fixed3(proba.value))
      && (proba.None? && score.Some? ==> s == "score=" + fixed3(score.value))
      && (proba.Some? && score.Some? ==>
            s == "probability=" + fixed3(proba.value) + ", score=" + fixed3(score.value))
  {
    var parts := ScoreParts(proba, score, fixed3);
    if proba.Some? && score.Some? {
      assert Join(parts, ", ") == parts[0] + ", " + parts[1];
    }
  }

  /** `_format_scores`, accumulating the parts in a list and joining them. */
  method FormatScores(proba: Option<real>, score: Option<real>, fixed3: real -> string) returns (s: string)
    ensures s == ScoresText(proba, score, fixed3)
    ensures s == "" <==> proba.None? && score.None?
  {
    var scores: seq<string> := [];
    if proba.Some? {
      scores := scores + ["probability=" + fixed3(proba.value)];
    }
    if score.Some? {
      scores := scores + ["score=" + fixed3(score.value)];
    }
    s := Join(scores, ", ");
    assert scores == ScoreParts(proba, score, fixed3);
    ScoresCases(proba, score, fixed3);
    if proba.Some? {
      assert |s| >= |"probability="|;
    } else if score.Some? {
      assert |s| >= |"score="|;
    }
  }

  /** The scores as the header shows them: in parentheses after a space, or nothing. */
  function ScoresSuffix(proba: Option<real>, score: Option<real>, fixed3: real -> string): string
  {
    var s := ScoresText(proba, score, fixed3);
    if s != "" then " (" + s + ")" else ""
  }

  /** The header line of one target: `y=` unless the model is a regression, the
      target's repr, the scores, then ` top features`. */
  function Header<Id, Tree>(t: Target<Id>, isRegression: bool, env: Env<Id, Tree>): string
  {
    (if !isRegression then "y=" else "") + env.repr(t.target)
    + ScoresSuffix(t.proba, t.score, env.fixed3) + " top features"
  }

  /** The header of one target as `_targets_lines` builds it. */
  method TargetHeader<Id, Tree>(t: Target<Id>, isRegression: bool, env: Env<Id, Tree>) returns (header: string)
    ensures header == Header(t, isRegression, env)
  {
    var scores := FormatScores(t.proba, t.score, env.fixed3);
    if scores != "" {
      scores := " (" + scores + ")";
    }
    header := (if !isRegression then "y=" else "") + env.repr(t.target) + scores + " top features";
  }

  /** The header holds the scores, in parentheses, exactly when a probability or a score is given. */
  lemma HeaderScores<Id, Tree>(t: Target<Id>, isRegression: bool, env: Env<Id, Tree>)
    ensures var prefix := (if !isRegression then "y=" else "") + env.repr(t.target);
      var scores := ScoresText(t.proba, t.score, env.fixed3);
      && (t.proba.None? && t.score.None? ==> Header(t, isRegression, env) == prefix + " top features")
      && (t.proba.Some? || t.score.Some? ==>
            Header(t, isRegression, env) == prefix + " (" + scores + ")" + " top features")
  {
    var scores := ScoresText(t.proba, t.score, env.fixed3);
    ScoresCases(t.proba, t.score, env.fixed3);
    if t.proba.Some? {
      assert |scores| >= |"probability="|;
    } else if t.score.Some? {
      assert |scores| >= |"score="|;
    }
  }

  // ---------------------------------------------------------------------------
  // Targets

  /** The summary line for omitted features, present only when the count is not zero. */
  function RemainingLines(remaining: int, kind: string): seq<string>
  {
    if remaining != 0 then [FormatRemaining(remaining, kind)] else []
  }

  /** The lines of one target up to its negative weights: header, rule, positive lines, summaries. */
  function BlockFront<Id, Tree>(t: Target<Id>, isRegression: bool, sz: nat, env: Env<Id, Tree>): seq<string>
  {
    var w := t.weights;
    [Header(t, isRegression, env), Repeat('-', sz + 10)]
    + FormatFeatureWeights(w.pos, sz, env.signed, env.weight8)
    + RemainingLines(w.posRemaining, "positive")
    + RemainingLines(w.negRemaining, "negative")
  }

  /** The lines `_targets_lines` emits for one target at column width `sz`. */
  function TargetBlock<Id, Tree>(t: Target<Id>, isRegression: bool, sz: nat, env: Env<Id, Tree>): seq<string>
  {
    BlockFront(t, isRegression, sz, env)
    + FormatFeatureWeights(Reverse(t.weights.neg), sz, env.signed, env.weight8)
    + [""]
  }

  /** The blocks of all targets, in target order. */
  function TargetsText<Id, Tree>(targets: seq<Target<Id>>, isRegression: bool, sz: nat, env: Env<Id, Tree>): seq<string>
  {
    if targets == [] then []
    else TargetsText(targets[..|targets| - 1], isRegression, sz, env)
         + TargetBlock(targets[|targets| - 1], isRegression, sz, env)
  }

  /** The body of the loop of `_targets_lines`: appends one target's lines to `lines`. */
  method AppendTarget<Id, Tree>(lines: seq<string>, target: Target<Id>, isRegression: bool, sz: nat, env: Env<Id, Tree>)
    returns (out: seq<string>)
    ensures out == lines + TargetBlock(target, isRegression, sz, env)
  {
    out := lines;
    var header := TargetHeader(target, isRegression, env);
    out := out + [header];
    out := out + [Repeat('-', sz + 10)];
    ghost var block := [header, Repeat('-', sz + 10)];
    AppendAssoc(lines, [header], [Repeat('-', sz + 10)]);
    assert out == lines + block;

    var w := target.weights;
    var posLines := FormatFeatureWeights(w.pos, sz, env.signed, env.weight8);
    out := out + posLines;
    AppendAssoc(lines, block, posLines);
    block := block + posLines;
    assert out == lines + block;
    if w.posRemaining != 0 {
      out := out + [FormatRemaining(w.posRemaining, "positive")];
    }
    AppendAssoc(lines, block, RemainingLines(w.posRemaining, "positive"));
    block := block + RemainingLines(w.posRemaining, "positive");
    assert out == lines + block;
    if w.negRemaining != 0 {
      out := out + [FormatRemaining(w.negRemaining, "negative")];
    }
    AppendAssoc(lines, block, RemainingLines(w.negRemaining, "negative"));
    block := block + RemainingLines(w.negRemaining, "negative");
    assert out == lines + block;
    var negLines := FormatFeatureWeights(Reverse(w.neg), sz, env.signed, env.weight8);
    out := out + negLines;
    AppendAssoc(lines, block, negLines);
    block := block + negLines;
    assert out == lines + block;
    out := out + [""];
    AppendAssoc(lines, block, [""]);
    block := block + [""];
    assert out == lines + block;
    assert block == TargetBlock(target, isRegression, sz, env);
  }

  /** `_targets_lines`: the blocks of all targets at the width they share. */
  method TargetsLines<Id, Tree>(e: Explanation<Id, Tree>, env: Env<Id, Tree>) returns (lines: seq<string>)
    requires |e.targets| > 0
    ensures lines == TargetsText(e.targets, e.isRegression, MaxFeatureSize(e.targets, env.signed), env)
  {
    lines := [];
    var sz := MaxFeatureSize(e.targets, env.signed);
    for i := 0 to |e.targets|
      invariant lines == TargetsText(e.targets[..i], e.isRegression, sz, env)
    {
      lines := AppendTarget(lines, e.targets[i], e.isRegression, sz, env);
      assert e.targets[..i + 1][..i] == e.targets[..i];
    }
    assert e.targets[..|e.targets|] == e.targets;
  }

  /** The layout of the front of a block: header, a rule of exactly `sz + 10`
      dashes, the positive lines in order, then the positive summary iff some
      positive features were omitted and the negative summary iff some negative
      ones were. */
  lemma BlockFrontLayout<Id, Tree>(t: Target<Id>, isRegression: bool, sz: nat, env: Env<Id, Tree>)
    ensures var f := BlockFront(t, isRegression, sz, env);
      var w := t.weights;
      var rp := if w.posRemaining != 0 then 1 else 0;
      var rn := if w.negRemaining != 0 then 1 else 0;
      && |f| == 2 + |w.pos| + rp + rn
      && f[0] == Header(t, isRegression, env)
      && |f[1]| == sz + 10 && (forall j :: 0 <= j < |f[1]| ==> f[1][j] == '-')
      && f[2..2 + |w.pos|] == FormatFeatureWeights(w.pos, sz, env.signed, env.weight8)
      && (w.posRemaining != 0 ==> f[2 + |w.pos|] == FormatRemaining(w.posRemaining, "positive"))
      && (w.negRemaining != 0 ==> f[2 + |w.pos| + rp] == FormatRemaining(w.negRemaining, "negative"))
  {
    var w := t.weights;
    var posLines := FormatFeatureWeights(w.pos, sz, env.signed, env.weight8);
    var rp := RemainingLines(w.posRemaining, "positive");
    var rn := RemainingLines(w.negRemaining, "negative");
    FrontIndices(Header(t, isRegression, env), Repeat('-', sz + 10), posLines, rp, rn);
  }

  /** The layout of one target's block: header, a rule of exactly `sz + 10`
      dashes, the positive lines in order, the positive summary iff some positive
      features were omitted, the negative summary iff some negative ones were,
      the lines of the reversed negative pairs (see ReversedWeightLines: the
      first negative pair comes last), and a blank line; so `3 + |pos| + |neg|`
      lines plus one per summary. */
  lemma TargetBlockLayout<Id, Tree>(t: Target<Id>, isRegression: bool, sz: nat, env: Env<Id, Tree>)
    ensures var b := TargetBlock(t, isRegression, sz, env);
      var w := t.weights;
      var rp := if w.posRemaining != 0 then 1 else 0;
      var rn := if w.negRemaining != 0 then 1 else 0;
      && |b| == 3 + |w.pos| + |w.neg| + rp + rn
      && b[0] == Header(t, isRegression, env)
      && |b[1]| == sz + 10 && (forall j :: 0 <= j < |b[1]| ==> b[1][j] == '-')
      && b[2..2 + |w.pos|] == FormatFeatureWeights(w.pos, sz, env.signed, env.weight8)
      && (w.posRemaining != 0 ==> b[2 + |w.pos|] == FormatRemaining(w.posRemaining, "positive"))
      && (w.negRemaining != 0 ==> b[2 + |w.pos| + rp] == FormatRemaining(w.negRemaining, "negative"))
      && b[|b| - 1 - |w.neg|..|b| - 1] == FormatFeatureWeights(Reverse(w.neg), sz, env.signed, env.weight8)
      && b[|b| - 1] == ""
  {
    var w := t.weights;
    var f := BlockFront(t, isRegression, sz, env);
    var negLines := FormatFeatureWeights(Reverse(w.neg), sz, env.signed, env.weight8);
    BlockFrontLayout(t, isRegression, sz, env);
    BackIndices(f, negLines, "");
    var b := TargetBlock(t, isRegression, sz, env);
    assert b[..|f|] == f;
    assert b[0] == f[0] && b[1] == f[1];
    assert b[2..2 + |w.pos|] == f[2..2 + |w.pos|];
    if w.posRemaining != 0 {
      assert b[2 + |w.pos|] == f[2 + |w.pos|];
    }
    var rp := if w.posRemaining != 0 then 1 else 0;
    if w.negRemaining != 0 {
      assert b[2 + |w.pos| + rp] == f[2 + |w.pos| + rp];
    }
  }

  /** Every weight line of every target, positive or negative, has its name
      column exactly as wide as the shared width. */
  lemma TargetsShareColumn<Id, Tree>(targets: seq<Target<Id>>, env: Env<Id, Tree>, k: nat)
    requires k < |targets|
    ensures var sz := MaxFeatureSize(targets, env.signed);
      var w := targets[k].weights;
      forall x :: x in w.pos + w.neg ==>
        |WeightLine(x, sz, env.signed, env.weight8)| == |env.weight8(x.coef)| + 2 + sz
  {
    var sz := MaxFeatureSize(targets, env.signed);
    var w := targets[k].weights;
    forall x | x in w.pos + w.neg
      ensures |WeightLine(x, sz, env.signed, env.weight8)| == |env.weight8(x.coef)| + 2 + sz
    {
      SharedWidthCovers(targets, env.signed, k, x);
      WeightLineShape(x, sz, env.signed, env.weight8);
    }
  }

  // ---------------------------------------------------------------------------
  // Feature importances

  /** The importance names as `_maxlen` sees them: plain names. */
  function ImportanceNames(imps: seq<Importance>): seq<FeatureName>
  {
    seq(|imps|, i requires 0 <= i < |imps| => Plain(imps[i].name))
  }

  /** The column width of the importance lines: the longest normalized name. */
  function ImportanceWidth(imps: seq<Importance>, signed: SignedFormatter): nat
  {
    MaxLen(ImportanceNames(imps), signed)
  }

  /** The fixed part of an importance line before the name: weight, the
      plus-minus glyph and twice the standard deviation. */
  function ImportanceHead(imp: Importance, fixed4: real -> string): string
  {
    fixed4(imp.weight) + " " + PlusMinus + " " + fixed4(2.0 * imp.std) + " "
  }

  /** One importance line: the head, then the raw name padded with spaces to `sz`. */
  function ImportanceLine(imp: Importance, sz: int, fixed4: real -> string): string
  {
    ImportanceHead(imp, fixed4) + LJust(imp.name, sz)
  }

  /** The columns of an importance line: the head, then the raw name, then
      spaces up to `sz` (none when the name is at least that long). */
  lemma ImportanceLineShape(imp: Importance, sz: int, fixed4: real -> string)
    ensures var r := ImportanceLine(imp, sz, fixed4);
      var head := ImportanceHead(imp, fixed4);
      && |r| == |head| + Max(sz, |imp.name|)
      && r[..|head|] == head
      && r[|head|..][..|imp.name|] == imp.name
      && AllSpaces(r[|head| + |imp.name|..])
  {
    var head := ImportanceHead(imp, fixed4);
    var seg := LJust(imp.name, sz);
    assert (head + seg)[|head|..] == seg;
  }

  /** Although `_maxlen` measures the normalized names, every raw importance name
      fits in that width: a plain name keeps its length when normalized. */
  lemma ImportanceNamesFit(imps: seq<Importance>, signed: SignedFormatter)
    ensures forall i :: 0 <= i < |imps| ==> |imps[i].name| <= ImportanceWidth(imps, signed)
  {
    var names := ImportanceNames(imps);
    MaxLenBounds(names, signed);
    forall i | 0 <= i < |imps| ensures |imps[i].name| <= ImportanceWidth(imps, signed) {
      assert names[i] == Plain(imps[i].name);
      assert |FormatFeature(Plain(imps[i].name), signed)| == |imps[i].name|;
    }
  }

  /** The lines `_feature_importances_lines` yields: one per importance, in order.
      The raw name is padded, but to the width of the normalized names; since every
      raw name fits, every name column is exactly that width. */
  function ImportanceLines(imps: seq<Importance>, env: Env): (r: seq<string>)
    ensures |r| == |imps|
    ensures forall i :: 0 <= i < |imps| ==>
      |r[i]| == |ImportanceHead(imps[i], env.fixed4)| + ImportanceWidth(imps, env.signed)
  {
    var sz := ImportanceWidth(imps, env.signed);
    ImportanceNamesFit(imps, env.signed);
    seq(|imps|, i requires 0 <= i < |imps| => ImportanceLine(imps[i], sz, env.fixed4))
  }

  /** The uncertainty an importance line shows is twice the stored standard deviation. */
  lemma ImportanceShowsDoubledStd(imp: Importance, sz: int, fixed4: real -> string)
    ensures var w := fixed4(imp.weight);
      var d := fixed4(2.0 * imp.std);
      ImportanceLine(imp, sz, fixed4)[..|w| + 3 + |d|] == w + " " + PlusMinus + " " + d
  {
    var line := ImportanceLine(imp, sz, fixed4);
    var head := ImportanceHead(imp, fixed4);
    var w := fixed4(imp.weight);
    var d := fixed4(2.0 * imp.std);
    assert head == (w + " " + PlusMinus + " " + d) + " ";
    assert line[..|w| + 3 + |d|] == head[..|w| + 3 + |d|];
  }

  /** `_feature_importances_lines`, materialized: one line per importance. */
  method FeatureImportancesLines<Id, Tree>(e: Explanation<Id, Tree>, env: Env<Id, Tree>) returns (lines: seq<string>)
    ensures lines == ImportanceLines(e.importances, env)
  {
    var imps := e.importances;
    var sz := ImportanceWidth(imps, env.signed);
    ghost var spec := ImportanceLines(imps, env);
    lines := [];
    for i := 0 to |imps|
      invariant |lines| == i
      invariant forall j :: 0 <= j < i ==> lines[j] == spec[j]
    {
      var line := ImportanceLine(imps[i], sz, env.fixed4);
      assert line == spec[i];
      lines := lines + [line];
    }
  }
}
