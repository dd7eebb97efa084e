/** `format_as_text`: the error line first, then the requested sections in the
    order they are asked for, all joined with newlines. */
module TextFormatter {
  import opened Strings
  import opened Explanations
  import opened WeightLines
  import opened Sections

  /** Whether `getattr(expl, key, None)` is truthy and the key names a section:
      a non-empty method or description, at least one target or importance, a
      decision tree. Any other token renders nothing. */
  predicate Shown<Id, Tree>(e: Explanation<Id, Tree>, key: Key)
  {
    match key
    case Method => Present(e.methodName)
    case Description => Present(e.description)
    case Targets => |e.targets| > 0
    case FeatureImportances => |e.importances| > 0
    case DecisionTree => e.decisionTree.Some?
    case Other(_) => false
  }

  /** The lines one key of `show` contributes. */
  function SectionLines<Id, Tree>(e: Explanation<Id, Tree>, key: Key, env: Env<Id, Tree>): seq<string>
  {
    if !Shown(e, key) then []
    else match key
      case Method => MethodLines(e)
      case Description => DescriptionLines(e)
      case Targets => TargetsText(e.targets, e.isRegression, MaxFeatureSize(e.targets, env.signed), env)
      case FeatureImportances => ImportanceLines(e.importances, env)
      case DecisionTree => DecisionTreeLines(e, env)
  }

  /** The lines of all keys of `show`, in the order of `show`. */
  function ShownLines<Id, Tree>(e: Explanation<Id, Tree>, show: seq<Key>, env: Env<Id, Tree>): seq<string>
  {
    if show == [] then []
    else ShownLines(e, show[..|show| - 1], env) + SectionLines(e, show[|show| - 1], env)
  }

  /** The error line, present whenever the error is, whatever `show` asks for. */
  function ErrorPart<Id, Tree>(e: Explanation<Id, Tree>): seq<string>
  {
    if Present(e.error) then ErrorLines(e) else []
  }

  /** All the lines of the text. */
  function OutputLines<Id, Tree>(e: Explanation<Id, Tree>, show: seq<Key>, env: Env<Id, Tree>): seq<string>
  {
    ErrorPart(e) + ShownLines(e, show, env)
  }

  /** The text `format_as_text` returns. */
  function FormatText<Id, Tree>(e: Explanation<Id, Tree>, show: seq<Key>, env: Env<Id, Tree>): string
  {
    Join(OutputLines(e, show, env), "\n")
  }

  /** `format_as_text`. */
  method FormatAsText<Id, Tree>(e: Explanation<Id, Tree>, show: seq<Key>, env: Env<Id, Tree>) returns (text: string)
    ensures text == FormatText(e, show, env)
    ensures text == "" <==> !Present(e.error) && forall k :: k in show ==> !Shown(e, k)
    ensures Present(e.error) ==>
      var head := "Error: " + e.error.value;
      |text| >= |head| && text[..|head|] == head && (|text| == |head| || text[|head|] == '\n')
  {
    var lines: seq<string> := [];
    if Present(e.error) {
      lines := lines + ErrorLines(e);
    }
    for i := 0 to |show|
      invariant lines == ErrorPart(e) + ShownLines(e, show[..i], env)
    {
      var key := show[i];
      assert show[..i + 1][..i] == show[..i];
      AppendAssoc(ErrorPart(e), ShownLines(e, show[..i], env), SectionLines(e, key, env));
      if !Shown(e, key) {
        continue;
      }
      ghost var before := lines;
      if key == Method {
        lines := lines + MethodLines(e);
      }
      if key == Description {
        lines := lines + DescriptionLines(e);
      }
      if key == Targets {
        var targetLines := TargetsLines(e, env);
        lines := lines + targetLines;
      }
      if key == FeatureImportances {
        var importanceLines := FeatureImportancesLines(e, env);
        lines := lines + importanceLines;
      }
      if key == DecisionTree {
        lines := lines + DecisionTreeLines(e, env);
      }
      assert lines == before + SectionLines(e, key, env);
    }
    assert show[..|show|] == show;
    text := Join(lines, "\n");
    TextEmptyIff(e, show, env);
    if Present(e.error) {
      ErrorFirst(e, show, env);
    }
  }

  // ---------------------------------------------------------------------------
  // Properties of the text

  /** Rendering `a` then `b` is rendering `a + b`: sections come out in the order
      they are asked for, once per occurrence of their key. */
  lemma {:induction false} ShownLinesAppend<Id, Tree>(e: Explanation<Id, Tree>, a: seq<Key>, b: seq<Key>, env: Env<Id, Tree>)
    ensures ShownLines(e, a + b, env) == ShownLines(e, a, env) + ShownLines(e, b, env)
  {
    if b != [] {
      var bInit := b[..|b| - 1];
      ShownLinesAppend(e, a, bInit, env);
      assert (a + b)[..|a + b| - 1] == a + bInit;
      assert (a + b)[|a + b| - 1] == b[|b| - 1];
      AppendAssoc(ShownLines(e, a, env), ShownLines(e, bInit, env), SectionLines(e, b[|b| - 1], env));
    } else {
      assert a + b == a;
    }
  }

  /** A single key renders its own section. */
  lemma ShownLinesSingle<Id, Tree>(e: Explanation<Id, Tree>, key: Key, env: Env<Id, Tree>)
    ensures ShownLines(e, [key], env) == SectionLines(e, key, env)
  {
    assert [key][..0] == [];
  }

  /** The keys of `show` that render something, in order. */
  function ShownKeys<Id, Tree>(e: Explanation<Id, Tree>, show: seq<Key>): (r: seq<Key>)
    ensures forall k :: k in r ==> k in show && Shown(e, k)
    ensures forall k :: k in show && Shown(e, k) ==> k in r
  {
    if show == [] then []
    else
      var init, last := show[..|show| - 1], show[|show| - 1];
      assert show == init + [last];
      ShownKeys(e, init) + (if Shown(e, last) then [last] else [])
  }

  /** A token that names no section renders nothing. */
  lemma UnknownTokenRendersNothing<Id, Tree>(e: Explanation<Id, Tree>, token: string, env: Env<Id, Tree>)
    requires token !in SectionNames
    ensures ShownLines(e, [KeyOf(token)], env) == []
  {
    ShownLinesSingle(e, KeyOf(token), env);
  }

  /** Keys that do not render (unknown tokens, empty or missing facets) can be
      dropped from `show` without changing the text. */
  lemma {:induction false} SkippedKeysIrrelevant<Id, Tree>(e: Explanation<Id, Tree>, show: seq<Key>, env: Env<Id, Tree>)
    ensures ShownLines(e, show, env) == ShownLines(e, ShownKeys(e, show), env)
  {
    if show != [] {
      var init := show[..|show| - 1];
      var last := show[|show| - 1];
      SkippedKeysIrrelevant(e, init, env);
      var tail := if Shown(e, last) then [last] else [];
      ShownLinesAppend(e, ShownKeys(e, init), tail, env);
      if Shown(e, last) {
        assert ShownLines(e, [last], env) == ShownLines(e, [], env) + SectionLines(e, last, env);
      }
    }
  }

  /** A list of lines whose join is not empty. */
  predicate NonBlank(lines: seq<string>)
  {
    |lines| >= 2 || (|lines| == 1 && lines[0] != "")
  }

  lemma ConcatNonBlank(a: seq<string>, b: seq<string>)
    requires NonBlank(a) || NonBlank(b)
    ensures NonBlank(a + b)
  {
    if |a| == 1 && |b| == 0 {
      assert a + b == a;
    }
    if |a| == 0 {
      assert a + b == b;
    }
  }

  /** Every section that is shown contributes lines whose join is not empty. */
  lemma SectionNonBlank<Id, Tree>(e: Explanation<Id, Tree>, key: Key, env: Env<Id, Tree>)
    requires Shown(e, key)
    ensures NonBlank(SectionLines(e, key, env))
  {
    match key
    case Targets =>
      var sz := MaxFeatureSize(e.targets, env.signed);
      var n := |e.targets|;
      var init := TargetsText(e.targets[..n - 1], e.isRegression, sz, env);
      TargetBlockLayout(e.targets[n - 1], e.isRegression, sz, env);
      assert |TargetsText(e.targets, e.isRegression, sz, env)| >= |TargetBlock(e.targets[n - 1], e.isRegression, sz, env)|;
    case FeatureImportances =>
      var imps := e.importances;
      if |imps| == 1 {
        ImportanceLineShape(imps[0], ImportanceWidth(imps, env.signed), env.fixed4);
        assert |ImportanceLines(imps, env)[0]| > 0;
      }
    case _ =>
  }

  /** Once one key of `show` is shown, the rendered sections are not blank. */
  lemma {:induction false} ShownLinesNonBlank<Id, Tree>(e: Explanation<Id, Tree>, show: seq<Key>, env: Env<Id, Tree>)
    ensures (exists k :: k in show && Shown(e, k)) ==> NonBlank(ShownLines(e, show, env))
    ensures (forall k :: k in show ==> !Shown(e, k)) ==> ShownLines(e, show, env) == []
  {
    if show != [] {
      var init := show[..|show| - 1];
      var last := show[|show| - 1];
      ShownLinesNonBlank(e, init, env);
      assert forall k :: k in show ==> k in init || k == last;
      assert forall k :: k in init ==> k in show;
      if Shown(e, last) {
        SectionNonBlank(e, last, env);
      }
      if (exists k :: k in show && Shown(e, k)) {
        ConcatNonBlank(ShownLines(e, init, env), SectionLines(e, last, env));
      }
    }
  }

  /** The text is empty exactly when there is no error and no key of `show` is shown. */
  lemma TextEmptyIff<Id, Tree>(e: Explanation<Id, Tree>, show: seq<Key>, env: Env<Id, Tree>)
    ensures FormatText(e, show, env) == "" <==> !Present(e.error) && forall k :: k in show ==> !Shown(e, k)
  {
    var lines := OutputLines(e, show, env);
    JoinEmptyIff(lines, "\n");
    ShownLinesNonBlank(e, show, env);
    if Present(e.error) {
      assert "Error: " + Str(e.error) != "";
      ConcatNonBlank(ErrorPart(e), ShownLines(e, show, env));
    } else if exists k :: k in show && Shown(e, k) {
      ConcatNonBlank(ErrorPart(e), ShownLines(e, show, env));
    } else {
      assert lines == [];
    }
  }

  /** With an error, the text starts with `Error: ` and the error, ended by a
      newline or by the end of the text, whichever sections are asked for. */
  lemma ErrorFirst<Id, Tree>(e: Explanation<Id, Tree>, show: seq<Key>, env: Env<Id, Tree>)
    requires Present(e.error)
    ensures var head := "Error: " + e.error.value;
      var text := FormatText(e, show, env);
      && |text| >= |head|
      && text[..|head|] == head
      && (|text| == |head| || text[|head|] == '\n')
  {
    var lines := OutputLines(e, show, env);
    var head := "Error: " + e.error.value;
    assert lines[0] == head;
    JoinHead(lines, "\n");
    if |lines| == 1 {
      assert FormatText(e, show, env) == head;
    } else {
      var text := FormatText(e, show, env);
      assert text[|head|..][..1] == "\n";
      assert text[|head|] == text[|head|..][..1][0];
    }
  }

  /** Without an error the text is exactly the requested sections. */
  lemma NoErrorSectionsOnly<Id, Tree>(e: Explanation<Id, Tree>, show: seq<Key>, env: Env<Id, Tree>)
    requires !Present(e.error)
    ensures FormatText(e, show, env) == Join(ShownLines(e, show, env), "\n")
  {
    assert OutputLines(e, show, env) == ShownLines(e, show, env);
  }

  /** A classifier explained by LIME: one target, `cat`, with probability 0.83 and
      a single positive feature `fur` of weight 1.2. */
  function LimeExplanation(): Explanation<string, int>
  {
    Explanation(None, Some("LIME"), None, false,
      [Target("cat", Some(0.83), None, FeatureWeights([Weight(Plain("fur"), 1.2)], [], 0, 0))],
      [], None)
  }

  /** The example's names need 3 columns: `fur` has no space to replace. */
  lemma LimeWidth(env: Env<string, int>)
    ensures MaxFeatureSize(LimeExplanation().targets, env.signed) == 3
    ensures FeatureNames.FormatFeature(Plain("fur"), env.signed) == "fur"
  {
    var t := LimeExplanation().targets[0];
    FeatureNames.SingleFeatureNoSpaces("fur");
    var names := Names(t.weights.pos + t.weights.neg);
    assert names == [Plain("fur")];
    assert names[1..] == [];
    assert MaxLen(names, env.signed) == 3;
  }

  /** The example's header line: `y=`, the repr of `cat`, the probability in
      parentheses (there is no score), then ` top features`. */
  function LimeHeaderLine(env: Env<string, int>): string
  {
    "y=" + env.repr("cat") + (" (" + ("probability=" + env.fixed3(0.83)) + ")") + " top features"
  }

  /** The example's weight line: the coefficient, two spaces, `fur` (already 3 wide). */
  function LimeWeightLine(env: Env<string, int>): string
  {
    env.weight8(1.2) + "  " + "fur"
  }

  lemma LimeHeader(env: Env<string, int>)
    ensures Header(LimeExplanation().targets[0], false, env) == LimeHeaderLine(env)
  {
    var t := LimeExplanation().targets[0];
    ScoresCases(t.proba, t.score, env.fixed3);
  }

  /** The example's rule: 3 + 10 dashes. */
  lemma LimeRule()
    ensures Repeat('-', 3 + 10) == "-------------"
  {
  }

  lemma LimeWeight(env: Env<string, int>)
    ensures WeightLine(Weight(Plain("fur"), 1.2), 3, env.signed, env.weight8) == LimeWeightLine(env)
  {
    FeatureNames.SingleFeatureNoSpaces("fur");
    assert LJust(FeatureNames.FormatFeature(Plain("fur"), env.signed), 3) == "fur";
  }

  /** The block of a target with a single positive pair, no negative pair and
      nothing omitted: header, rule, the one weight line, a blank line. */
  lemma SinglePositiveBlock<Id, Tree>(t: Target<Id>, isRegression: bool, sz: nat, env: Env<Id, Tree>)
    requires |t.weights.pos| == 1 && t.weights.neg == []
    requires t.weights.posRemaining == 0 && t.weights.negRemaining == 0
    ensures TargetBlock(t, isRegression, sz, env)
            == [Header(t, isRegression, env), Repeat('-', sz + 10),
                WeightLine(t.weights.pos[0], sz, env.signed, env.weight8), ""]
  {
    var w := t.weights;
    assert FormatFeatureWeights(w.pos, sz, env.signed, env.weight8)
           == [WeightLine(w.pos[0], sz, env.signed, env.weight8)];
    assert Reverse(w.neg) == [];
  }

  /** The text of one target is that target's block. */
  lemma SingleTargetText<Id, Tree>(t: Target<Id>, isRegression: bool, sz: nat, env: Env<Id, Tree>)
    ensures TargetsText([t], isRegression, sz, env) == TargetBlock(t, isRegression, sz, env)
  {
    assert [t][..0] == [];
  }

  /** Its only target renders as its header, a rule of 13 dashes (the 3 columns
      of `fur` plus 10), its weight line and a blank line. */
  lemma LimeTargetLines(env: Env<string, int>)
    ensures var e := LimeExplanation();
      TargetsText(e.targets, false, MaxFeatureSize(e.targets, env.signed), env)
      == [LimeHeaderLine(env), "-------------", LimeWeightLine(env), ""]
  {
    var e := LimeExplanation();
    var t := e.targets[0];
    assert e.targets == [t];
    LimeWidth(env);
    LimeHeader(env);
    LimeRule();
    LimeWeight(env);
    SingleTargetText(t, false, 3, env);
    SinglePositiveBlock(t, false, 3, env);
  }

  /** The method line of the example. */
  lemma LimeMethodLine()
    ensures MethodLines(LimeExplanation()) == ["Explained as: LIME"]
  {
    var e := LimeExplanation();
    assert "Explained as: " + Str(e.methodName) == "Explained as: LIME";
  }

  /** Empty sections add no lines. */
  lemma DropEmpty(a: seq<string>, b: seq<string>)
    ensures a + [] + b + [] + [] == a + b
  {
  }

  /** Five keys show the concatenation of their five sections. */
  lemma FiveSections<Id, Tree>(e: Explanation<Id, Tree>, k0: Key, k1: Key, k2: Key, k3: Key, k4: Key, env: Env<Id, Tree>)
    ensures ShownLines(e, [k0, k1, k2, k3, k4], env)
            == SectionLines(e, k0, env) + SectionLines(e, k1, env) + SectionLines(e, k2, env)
               + SectionLines(e, k3, env) + SectionLines(e, k4, env)
  {
    var a := [k0, k1, k2, k3, k4];
    var s1, s2, s3, s4 := SectionLines(e, k1, env), SectionLines(e, k2, env), SectionLines(e, k3, env), SectionLines(e, k4, env);
    assert a[..4][..3] == a[..3] && a[..3][..2] == a[..2] && a[..2][..1] == [k0];
    assert ShownLines(e, a, env) == ShownLines(e, a[..4], env) + s4;
    assert ShownLines(e, a[..4], env) == ShownLines(e, a[..3], env) + s3;
    assert ShownLines(e, a[..3], env) == ShownLines(e, a[..2], env) + s2;
    assert ShownLines(e, a[..2], env) == ShownLines(e, [k0], env) + s1;
    ShownLinesSingle(e, k0, env);
  }

  /** With the default keys, an explanation with no error, a method, no
      description, some targets, no importances and no tree shows the method
      line, then its targets' lines. */
  lemma MethodAndTargetsOnly<Id, Tree>(e: Explanation<Id, Tree>, env: Env<Id, Tree>)
    requires !Present(e.error) && Present(e.methodName) && !Present(e.description)
    requires |e.targets| > 0 && e.importances == [] && e.decisionTree.None?
    ensures OutputLines(e, AllKeys, env)
            == MethodLines(e) + TargetsText(e.targets, e.isRegression, MaxFeatureSize(e.targets, env.signed), env)
  {
    var t := TargetsText(e.targets, e.isRegression, MaxFeatureSize(e.targets, env.signed), env);
    FiveSections(e, Method, Description, Targets, FeatureImportances, DecisionTree, env);
    DropEmpty(MethodLines(e), t);
  }

  /** The whole text, for any number formatters and any repr: the method line,
      the target's header, a rule of 13 dashes, the weight line and a blank
      line, joined by newlines. With `repr` giving `'cat'`, `%0.3f` giving
      `0.830` and `{:+8.3f}` giving `  +1.200`, the lines are
      `Explained as: LIME`, `y='cat' (probability=0.830) top features`,
      `-------------`, `  +1.200  fur` and an empty line. */
  lemma LimeExample(env: Env<string, int>)
    ensures FormatText(LimeExplanation(), AllKeys, env)
            == Join(["Explained as: LIME", LimeHeaderLine(env), "-------------", LimeWeightLine(env), ""], "\n")
  {
    LimeMethodLine();
    LimeTargetLines(env);
    MethodAndTargetsOnly(LimeExplanation(), env);
  }
}
