# A verified model of eli5's plain-text explanation formatter

eli5 explains the predictions of machine-learning models. `format_as_text`
turns an explanation into plain text. It writes an `Error: …` line first when
the explanation carries an error. It then renders the sections the caller names
in `show`, in that order: the method, the description, one block per target,
the global feature importances, and the decision tree. Sections whose facet is
missing or empty are skipped, and all lines are joined with newlines.

Each target block has these lines:
- a header, `y=<repr(target)> (probability=…, score=…) top features`. The `y=`
  is dropped for a regression. The parentheses hold only the scores that are
  given, and are dropped when there are none;
- a rule of dashes;
- the positive weights, then a summary line for omitted positive features when
  their count is non-zero, and one for omitted negative features when that
  count is non-zero;
- the negative weights in reverse order;
- a blank line.

Every feature name is normalized before it is printed and measured:
- a pre-formatted name is shown as is;
- a hashed bucket becomes its signed entries joined by ` | `;
- any other name has its spaces replaced by a placeholder glyph.

All names of all targets are padded to one shared column width.

The model has six modules:

- `Strings` (`strings.dfy`): the Python string built-ins the formatter uses.
  These are `ljust`, `rjust`, `str.join`, `*` on strings, `reversed` and `str(int)`.
- `Explanations` (`explanation.dfy`): the explanation value, the section keys,
  the glyphs, and the collaborators the formatter calls but does not define.
  The collaborators are bundled in `Env`: number formatting, `repr`,
  `format_signed` and `tree2text`.
- `FeatureNames` (`feature_names.dfy`): `_format_feature` and its helpers.
- `WeightLines` (`weight_lines.dfy`): the column widths (`_maxlen`,
  `_max_feature_size`), the weight lines and the "N more features" line.
- `Sections` (`sections.dfy`): the section renderers, `_format_scores` and the
  target header.
- `TextFormatter` (`text_formatter.dfy`): `format_as_text`.

The code that builds lists step by step is written as imperative methods with
loops. Each method is proved equal to a specification function, and the
properties are proved about those functions as lemmas. These methods are
`FormatAsText`, `TargetsLines` with its loop body `AppendTarget`,
`FeatureImportancesLines`, `FormatScores` and `TargetHeader`. The pure helpers are functions.

Points of the code worth noting:

- The header uses `%r` of the target and ends with ` top features`.
- The rule is `sz + 10` dashes. For a single feature `fur` that is 13 dashes (see `LimeExample`).
- Both summary lines come before the reversed negative lines.
- A summary line is written when its count is non-zero. That is Python
  truthiness, so a negative count would also print one.
- Importance rows pad the raw name. Their width comes from the normalized names,
  which have the same length.

## Model

| member | source | states |
|---|---|---|
| `TextFormatter.FormatAsText` | eli5/formatters/text.py:16-41 | The loop builds exactly the error part followed by the lines of each key of `show` in order, joined by newlines. The text is empty iff there is no error and no key of `show` is shown. With an error, the text starts with `Error: <error>`, followed by a newline or the end of the text. |
| `TextFormatter.Shown` | eli5/formatters/text.py:23 | `getattr(expl, key, None)` truthiness: the facet a section key names is present and non-empty. A token that names no section is never shown. |
| `TextFormatter.SectionLines` | eli5/formatters/text.py:26-39 | The lines one key contributes: nothing when it is not shown, otherwise the renderer its token selects. |
| `TextFormatter.ShownLines` | eli5/formatters/text.py:22-39 | The lines of the keys of `show`, in order. `ShownLinesAppend` and `SkippedKeysIrrelevant` give its properties. |
| `TextFormatter.FormatText` | eli5/formatters/text.py:16-41 | The text `format_as_text` returns: the error part and the shown lines, joined by newlines. `FormatAsText` is proved to return it. |
| `TextFormatter.ErrorPart` | eli5/formatters/text.py:19-20 | The error line when the error is present and non-empty, nothing otherwise, whatever `show` holds. |
| `TextFormatter.OutputLines` | eli5/formatters/text.py:17-39 | The `lines` buffer after the loop: the error part, then the shown sections in `show` order. |
| `TextFormatter.ErrorFirst` | eli5/formatters/text.py:19-20 | With a non-empty error, the text starts with `Error: ` and the error, ended by a newline or by the end of the text, whatever `show` holds. |
| `TextFormatter.TextEmptyIff` | eli5/formatters/text.py:17-41 | The text is `""` exactly when there is no error and every requested facet is empty, missing or unknown. |
| `TextFormatter.ShownLinesAppend` | eli5/formatters/text.py:22-39 | Rendering `a + b` equals rendering `a` followed by rendering `b`. So sections appear in the order of `show`, once per occurrence of their key. |
| `TextFormatter.ShownLinesSingle` | eli5/formatters/text.py:22-39 | A single key renders its own section and nothing else. |
| `TextFormatter.ShownKeys` | eli5/formatters/text.py:22-24 | A key is kept exactly when it occurs in `show` and is shown. |
| `TextFormatter.SkippedKeysIrrelevant` | eli5/formatters/text.py:22-24 | Dropping every key whose facet is empty or whose token names no section leaves the text unchanged. |
| `TextFormatter.UnknownTokenRendersNothing` | eli5/formatters/text.py:22-39 | The key of a token that is none of the five section names renders no lines. |
| `TextFormatter.ConcatNonBlank` | eli5/formatters/text.py:41 | Lines whose join is non-empty stay that way when more lines are added before or after them. |
| `TextFormatter.SectionNonBlank` | eli5/formatters/text.py:26-39 | A shown section contributes lines whose join is not empty. |
| `TextFormatter.ShownLinesNonBlank` | eli5/formatters/text.py:22-39 | If some key is shown, the rendered lines join to non-empty text. If none is shown, there are no lines. |
| `TextFormatter.NoErrorSectionsOnly` | eli5/formatters/text.py:19-20 | Without an error, the text is exactly the requested sections joined by newlines. |
| `TextFormatter.LimeMethodLine` | eli5/formatters/text.py:44-45 | The method line of a LIME explanation is `Explained as: LIME`. |
| `TextFormatter.LimeWidth` | eli5/formatters/text.py:73 | The example's one feature `fur` needs 3 columns, and its normalized name is `fur` itself. |
| `TextFormatter.LimeHeader` | eli5/formatters/text.py:75-82 | The example's header is `y=`, the repr of `cat`, ` (probability=<0.83 at three decimals>)` and ` top features`, for any number formatter and repr. |
| `TextFormatter.LimeRule` | eli5/formatters/text.py:84 | At width 3 the rule is 13 dashes. |
| `TextFormatter.LimeWeight` | eli5/formatters/text.py:119-120 | The weight line of `fur` at width 3 is the formatted coefficient, two spaces and `fur`, with no padding. |
| `TextFormatter.SinglePositiveBlock` | eli5/formatters/text.py:83-93 | A target with one positive pair, no negative pairs and nothing omitted renders as its header, the rule, that pair's weight line and a blank line. |
| `TextFormatter.SingleTargetText` | eli5/formatters/text.py:74-94 | With a single target, the targets section is exactly that target's block. |
| `TextFormatter.LimeTargetLines` | eli5/formatters/text.py:71-94 | The example's targets section has four lines: its header, 13 dashes, the weight line of `fur` and a blank line. This holds for any number formatter and repr. |
| `TextFormatter.FiveSections` | eli5/formatters/text.py:22-39 | Five keys render as their five sections, concatenated in order. |
| `TextFormatter.MethodAndTargetsOnly` | eli5/formatters/text.py:19-39 | With every key asked for, an explanation with no error, a method, no description, some targets, no importances and no tree renders as its method line followed by its targets section. |
| `TextFormatter.LimeExample` | eli5/formatters/text.py:16-41 | The complete text of the example, for any number formatter and repr: `Explained as: LIME`, the header, 13 dashes and the weight line, each followed by a newline. |
| `Sections.ErrorLines` | eli5/formatters/text.py:52-53 | The single line `Error: <error>`. |
| `Sections.MethodLines` | eli5/formatters/text.py:44-45 | The single line `Explained as: <method>`. |
| `Sections.DescriptionLines` | eli5/formatters/text.py:48-49 | The single line holding the description. |
| `Sections.DecisionTreeLines` | eli5/formatters/text.py:67-68 | A blank line, then the text `tree2text` gives for the tree. |
| `Sections.ScoresText` | eli5/formatters/text.py:97-103 | The scores text: the present parts among `probability=…` and `score=…`, joined by `, `. `ScoresCases` states its four cases. |
| `Sections.ScoreParts` | eli5/formatters/text.py:98-102 | The `scores` list: `probability=…` when a probability is given, then `score=…` when a score is given. |
| `Sections.FormatScores` | eli5/formatters/text.py:97-103 | The parts built by the method, joined by `, `, are the scores text. That text is empty exactly when neither a probability nor a score is given. |
| `Sections.ScoresCases` | eli5/formatters/text.py:97-103 | The scores text for all four cases. With neither value it is nothing. With both, the probability comes first, then `, `, then the score. |
| `Sections.Header` | eli5/formatters/text.py:75-82 | The header of one target. `HeaderScores` and `TargetHeader` state its shape. |
| `Sections.ScoresSuffix` | eli5/formatters/text.py:76-77 | The scores as the header shows them: ` (scores)` when the scores text is non-empty, nothing otherwise. |
| `Sections.RemainingLines` | eli5/formatters/text.py:88-91 | One summary line when the count is non-zero, none otherwise. |
| `Sections.BlockFront` | eli5/formatters/text.py:79-91 | A block up to its negative lines: the header, the rule, the positive lines and the two summaries. `BlockFrontLayout` states the layout. |
| `Sections.TargetBlock` | eli5/formatters/text.py:83-93 | The lines of one target block. `TargetBlockLayout` states their order and count. |
| `Sections.TargetsText` | eli5/formatters/text.py:71-94 | The blocks of all targets, in order, at one width. `TargetsLines` is proved to build it. |
| `Sections.TargetHeader` | eli5/formatters/text.py:75-82 | The header the loop body builds is `y=` (unless the model is a regression), the repr, the parenthesized scores when there are any, and ` top features`. |
| `Sections.HeaderScores` | eli5/formatters/text.py:75-82 | The header holds ` (scores)` exactly when a probability or a score is given. Otherwise the repr is followed directly by ` top features`. |
| `Sections.AppendTarget` | eli5/formatters/text.py:75-93 | One iteration appends exactly one target block to the lines built so far. |
| `Sections.TargetsLines` | eli5/formatters/text.py:71-94 | The result is the blocks of all targets, in target order, rendered at the width shared by all targets. |
| `Sections.BlockFrontLayout` | eli5/formatters/text.py:83-91 | A block begins in this order: the header, a rule of exactly `sz + 10` dashes, the positive lines, the positive summary iff its count is non-zero, and the negative summary iff its count is non-zero. |
| `Sections.TargetBlockLayout` | eli5/formatters/text.py:83-93 | A block is, in order: the header, `sz + 10` dashes, the positive lines, the positive summary iff its count is non-zero, the negative summary iff its count is non-zero, the lines of the reversed negative pairs, and one blank line. So it has `3 + \|pos\| + \|neg\|` lines plus one for each summary. |
| `Sections.TargetsShareColumn` | eli5/formatters/text.py:73-92 | For every positive or negative pair of every target, the weight line has a name column of exactly the shared width. |
| `Sections.ImportanceWidth` | eli5/formatters/text.py:57 | `_maxlen` of the importance names. |
| `Sections.ImportanceHead` | eli5/formatters/text.py:59-63 | The part of an importance line before the name: the weight, ` ± `, the formatted doubled std and a space. |
| `Sections.ImportanceLine` | eli5/formatters/text.py:59-64 | One importance line. `ImportanceLineShape` states its fields. |
| `Sections.ImportanceNames` | eli5/formatters/text.py:57-58 | Each importance name, as the plain name `_maxlen` measures. |
| `Sections.ImportanceLineShape` | eli5/formatters/text.py:59-64 | An importance line is the weight, `±`, the doubled std and the raw name, padded with spaces to the width. |
| `Sections.ImportanceLines` | eli5/formatters/text.py:56-64 | One line per importance, and every line is exactly the head plus the width of the longest normalized name long. So all name columns line up, although the raw name is the one padded. |
| `Sections.ImportanceNamesFit` | eli5/formatters/text.py:57-60 | Every raw importance name fits in the width `_maxlen` computes from the normalized names. |
| `Sections.ImportanceShowsDoubledStd` | eli5/formatters/text.py:59-63 | The uncertainty a line shows is the formatting of twice the stored std. |
| `Sections.FeatureImportancesLines` | eli5/formatters/text.py:56-64 | The loop produces exactly the specified importance lines. |
| `WeightLines.MaxLen` | eli5/formatters/text.py:106-109 | `_maxlen`: the longest normalized name length, 0 when there is none. `MaxLenBounds` proves these bounds. |
| `WeightLines.TargetWidth` | eli5/formatters/text.py:113-114 | `_max_feature_length`: `_maxlen` of a target's positive and negative pairs together. |
| `WeightLines.MaxFeatureSize` | eli5/formatters/text.py:112-115 | `_max_feature_size`: the largest target width. `MaxFeatureSizeBounds` proves it. |
| `WeightLines.WeightLine` | eli5/formatters/text.py:119-120 | One weight line: the formatted coefficient, two spaces, the padded normalized name. `WeightLineShape` states its columns. |
| `WeightLines.FormatRemaining` | eli5/formatters/text.py:124-129 | The "N more KIND features" line. `RemainingShape` states it. |
| `WeightLines.Names` | eli5/formatters/text.py:106-115 | The name of each pair (`it[0]`), in order. |
| `WeightLines.MaxLenBounds` | eli5/formatters/text.py:106-109 | `_maxlen` is 0 for no names. Otherwise it is at least the normalized length of every name and equal to the length of one of them. |
| `WeightLines.MaxFeatureSizeBounds` | eli5/formatters/text.py:112-115 | The shared width is at least every target's width and equal to the width of one target. |
| `WeightLines.SharedWidthCovers` | eli5/formatters/text.py:112-115 | Every positive or negative name of every target fits in the shared width. |
| `WeightLines.WeightLineShape` | eli5/formatters/text.py:119-120 | A weight line is the formatted coefficient, two spaces and the normalized name, then spaces up to `sz`. Its name segment has length `max(sz, \|name\|)`. |
| `WeightLines.FormatFeatureWeights` | eli5/formatters/text.py:118-121 | One line per pair, in input order. Each line is the coefficient, two spaces and `max(sz, \|name\|)` columns of name. |
| `WeightLines.ReversedWeightLines` | eli5/formatters/text.py:92 | Rendering the reversed pairs gives the lines of the pairs from last to first. |
| `WeightLines.WeightLinesAligned` | eli5/formatters/text.py:118-121 | When no name is longer than `sz`, every line is exactly the coefficient, two spaces and `sz` columns long. |
| `WeightLines.MaxLenAligns` | eli5/formatters/text.py:106-121 | With `sz` equal to `_maxlen` of the pairs, every name segment is exactly `sz` long. |
| `WeightLines.RemainingShape` | eli5/formatters/text.py:124-129 | The summary line is seven spaces and `…`, two spaces, then `(N more KIND features)` with N in decimal. |
| `WeightLines.RemainingExample` | eli5/formatters/text.py:124-129 | Three omitted negative features give `       …  (3 more negative features)`. |
| `FeatureNames.FormatFeature` | eli5/formatters/text.py:132-139 | `_format_feature`: the three cases. `FormatFeatureCases` states them. |
| `FeatureNames.FormatUnhashedFeature` | eli5/formatters/text.py:146-150 | The signed parts of a hashed name joined by ` \| `. `UnhashedShape` states the shape. |
| `FeatureNames.FormatSingleFeature` | eli5/formatters/text.py:142-143 | Every space becomes the placeholder glyph and nothing else changes, so the length is kept. |
| `FeatureNames.RestoreSpaces` | eli5/formatters/text.py:142-143 | Not in the code: the inverse of `_format_single_feature`, used only by `SingleFeatureRoundTrip`. Every placeholder glyph becomes a space and nothing else changes. |
| `FeatureNames.SingleFeatureRoundTrip` | eli5/formatters/text.py:142-143 | A name without the glyph is recovered from its display form, and the display form has no space. |
| `FeatureNames.SignedParts` | eli5/formatters/text.py:150 | One signed part per hashed entry. |
| `FeatureNames.UnhashedShape` | eli5/formatters/text.py:146-150 | k entries give the k signed parts with k - 1 separators ` \| `. There is nothing for no entries and the bare part for one. |
| `FeatureNames.SingleFeatureNoSpaces` | eli5/formatters/text.py:142-143 | A name without spaces is displayed unchanged. |
| `FeatureNames.HashedExample` | eli5/formatters/text.py:146-150 | The bucket {x, +1}, {y, -1} displays as `+x \| -y` under `SignPrefixed`, a sample formatter standing in for `format_signed`; the real prefixes are not modelled. |
| `FeatureNames.FormatFeatureCases` | eli5/formatters/text.py:132-139 | A pre-formatted name is shown verbatim. A hashed list is its signed parts joined by ` \| `. Any other name keeps its length and loses its spaces. |
| `Explanations.Present` | eli5/formatters/text.py:19-23 | Python truthiness of an optional string: present and not empty. |
| `Explanations.Str` | eli5/formatters/text.py:44-53 | `'{}'.format` of an optional string: the string, or `None` when missing. |
| `Explanations.KeyName` | eli5/formatters/text.py:26-38 | The token a section key is compared with. |
| `Explanations.KeyOf` | eli5/formatters/text.py:26-38 | The key a token of `show` denotes. Its name is the token, and it is `Other` exactly when the token is none of the five section names. |
| `Explanations.KeyOfName` | eli5/formatters/text.py:26-38 | The key of every token is a token key, and every token key is the key of its own name. So no `Other` key stands for a section name. |
| `Explanations.AllKeysNamed` | eli5/formatters/text.py:16 | The default keys are the keys of `method`, `description`, `targets`, `feature_importances` and `decision_tree`, in that order. |
| `Strings.Join` | eli5/formatters/text.py:41 | `sep.join(parts)`. `JoinLength`, `JoinEmptyIff` and `JoinHead` state its properties. |
| `Strings.Reverse` | eli5/formatters/text.py:92 | `reversed(s)`: the elements from last to first. `ReversedWeightLines` uses it. |
| `Strings.Decimal` | eli5/formatters/text.py:127 | `str(n)`: a minus sign for a negative number, then the digits of `NatDecimal`. |
| `Strings.Repeat` | eli5/formatters/text.py:84 | `"-" * n` is n copies of the character. |
| `Strings.LJust` | eli5/formatters/text.py:118-121 | The text, then spaces up to the width. Text that is already that long is not cut. |
| `Strings.RJust` | eli5/formatters/text.py:126 | Spaces up to the width, then the text. |
| `Strings.JoinLength` | eli5/formatters/text.py:150 | Joining k parts inserts exactly k - 1 separators. |
| `Strings.JoinEmptyIff` | eli5/formatters/text.py:41 | With a non-empty separator, the join is empty exactly when the parts are none or one empty string. |
| `Strings.JoinHead` | eli5/formatters/text.py:41 | A join starts with its first part, followed by the separator when there are more parts. |
| `Strings.NatDecimal` | eli5/formatters/text.py:127 | `str(n)` of a natural number is a non-empty string of decimal digits, with no leading zero unless n is 0. |
| `Strings.NatDecimalRoundTrip` | eli5/formatters/text.py:127 | Reading those digits back gives `n`. |

## Left out

- Number formatting (`%0.3f`, `{:+8.3f}`, `{:0.4f}`): floating-point rendering is not modelled. Each format is a string-valued function in `Env`, and coefficients are `real`.
- `2*std` is computed on reals, not on floats.
- `repr` of the target identifier is an opaque function in `Env`.
- `format_signed` is an opaque function in `Env`, because `eli5/formatters/utils.py` is not part of this model.
- `replace_spaces` (also in `eli5/formatters/utils.py`) is given the behaviour it has with the callback `_format_single_feature` passes: every space becomes one placeholder glyph.
- `tree2text` is an opaque function in `Env`, because `eli5/formatters/trees.py` is not part of this model. `_decision_tree_lines` is modelled as a blank line followed by its result.
- `FormattedFeatureName.format()` is taken to be the name's text, because `eli5/formatters/features.py` is not part of this model.
- The hashed-name test requires a list whose entries all have `name` and `sign`. It becomes the `Hashed` form of the name datatype. `Plain` holds a string, so a non-string name that fails the test (a list without `name` and `sign`, for instance) cannot be represented.
- `fields.ALL` is taken to be the five section keys in the order method, description, targets, feature_importances, decision_tree (`AllKeys`).
- The Python 2 glyph set (`+-`, `...`, `_`) is left out. The model fixes the Python 3 glyphs `±`, `…` and `░`.
- `getattr(expl, key, None)` truthiness becomes `Shown`, which checks each facet:
  - string facets are optional and must be non-empty;
  - lists must be non-empty;
  - a decision tree must be present.
  A token naming no section renders nothing, as in the code.
- Importance names are plain strings only (`Importance.name` is a `string`), because `eli5/formatters/text.py:60` pads the raw name with `ljust`, which only a string has. Hashed-list and pre-formatted importance names, which `eli5/formatters/text.py:109` would otherwise normalize, are not modelled.
- `show` is a sequence of keys. A token is mapped to its key by `KeyOf`; an `Other` key is meant to carry a token that names no section (`TokenKey`). The formatter is stated over keys, not raw tokens.
- The lazy generator of `_feature_importances_lines` is modelled as a materialized sequence.
- `TargetsLines`: requires at least one target. `max()` of an empty sequence raises in `_max_feature_size`, and `format_as_text` only calls it when there is a target.
- Calling the formatter twice gives the same text, because every operation is a function of its inputs. No lemma states this.
