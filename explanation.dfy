/** The explanation value the text formatter reads, the section keys a caller
    may ask for, the glyphs it prints, and the collaborators from other modules
    (number formatting, `repr`, signed hashed-feature names, the tree renderer),
    which stay opaque and are handed in as functions. */
module Explanations {

  datatype Option<T> = None | Some(value: T)

  /** One raw feature of a hashed bucket: its name and the sign it entered the bucket with. */
  datatype HashedEntry = HashedEntry(name: string, sign: int)

  /** A feature name in one of its three forms. */
  datatype FeatureName =
    | Formatted(text: string)            // a FormattedFeatureName: shown as it is
    | Hashed(entries: seq<HashedEntry>)  // a list of {name, sign} entries
    | Plain(name: string)                // any other name

  /** A (name, coefficient) pair. */
  datatype Weight = Weight(name: FeatureName, coef: real)

  datatype FeatureWeights = FeatureWeights(
    pos: seq<Weight>,
    neg: seq<Weight>,
    posRemaining: int,
    negRemaining: int)

  datatype Target<Id> = Target(
    target: Id,
    proba: Option<real>,
    score: Option<real>,
    weights: FeatureWeights)

  /** A (name, weight, std) triple of a global feature importance. */
  datatype Importance = Importance(name: string, weight: real, std: real)

  datatype Explanation<Id, Tree> = Explanation(
    error: Option<string>,
    methodName: Option<string>,
    description: Option<string>,
    isRegression: bool,
    targets: seq<Target<Id>>,
    importances: seq<Importance>,
    decisionTree: Option<Tree>)

  /** A token of the `show` sequence; `Other` is any token that names no section. */
  datatype Key = Method | Description | Targets | FeatureImportances | DecisionTree | Other(token: string)

  /** The default `show`: every section, in canonical order. */
  const AllKeys: seq<Key> := [Method, Description, Targets, FeatureImportances, DecisionTree]

  /** The tokens `format_as_text` compares `key` with, in the order of `AllKeys`. */
  const SectionNames: seq<string> := ["method", "description", "targets", "feature_importances", "decision_tree"]

  /** The token a key stands for. */
  function KeyName(k: Key): string
  {
    match k
    case Method => "method"
    case Description => "description"
    case Targets => "targets"
    case FeatureImportances => "feature_importances"
    case DecisionTree => "decision_tree"
    case Other(t) => t
  }

  /** The key a token of `show` denotes: a section when it equals one of the
      five section names, `Other` otherwise. */
  function KeyOf(token: string): (k: Key)
    ensures KeyName(k) == token
    ensures k.Other? <==> token !in SectionNames
  {
    if token == "method" then Method
    else if token == "description" then Description
    else if token == "targets" then Targets
    else if token == "feature_importances" then FeatureImportances
    else if token == "decision_tree" then DecisionTree
    else Other(token)
  }

  /** A key some token denotes: `Other` only for a token that names no section
      (so not `Other("method")`). */
  predicate TokenKey(k: Key)
  {
    k.Other? ==> k.token !in SectionNames
  }

  /** Tokens and token keys correspond one to one: every token's key is a token
      key, and a token key is the key of its own name. */
  lemma KeyOfName(k: Key, token: string)
    ensures TokenKey(KeyOf(token))
    ensures TokenKey(k) ==> KeyOf(KeyName(k)) == k
  {
  }

  /** The default keys are the keys of the five section names, in order. */
  lemma AllKeysNamed()
    ensures |AllKeys| == |SectionNames|
    ensures forall i :: 0 <= i < |AllKeys| ==> AllKeys[i] == KeyOf(SectionNames[i])
  {
  }

  /** `format_signed(entry, formatter)`: text for one signed entry of a hashed name,
      given the formatter for its inner name. */
  type SignedFormatter = (HashedEntry, string -> string) -> string

  /** The collaborators the formatter calls but does not define. */
  datatype Env<!Id, !Tree> = Env(
    repr: Id -> string,          // `%r` of a target identifier
    signed: SignedFormatter,     // `format_signed`
    weight8: real -> string,     // `{:+8.3f}`
    fixed3: real -> string,      // `%0.3f`
    fixed4: real -> string,      // `{:0.4f}`
    treeText: Tree -> string)    // `tree2text`

  /** The Python 3 glyph set. */
  const PlusMinus: string := "±"
  const Ellipsis: string := "…"
  const SpaceGlyph: char := '░'

  /** Python truthiness of an optional string: present and not empty. */
  predicate Present(o: Option<string>)
  {
    o.Some? && o.value != ""
  }

  /** `'{}'.format(o)`: the string, or `None` for a missing value. */
  function Str(o: Option<string>): string
  {
    match o
    case Some(s) => s
    case None => "None"
  }
}
