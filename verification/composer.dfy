/** The override composer `createDefinition`: a provider definition is the
    base definition spread first and the overrides spread over it,
    `{ ...base, ...overrides }`. The merge is right-biased and property by
    property; it validates nothing and has no error case.
 */
module Composer {
  import opened Definitions

  /** The property a right-biased spread keeps: the override's when it has
      one, the base's otherwise. */
  function Prefer<T>(overriding: Option<T>, base: Option<T>): Option<T> {
    if overriding.Some? then overriding else base
  }

  /** `createDefinition(base, overrides)`. */
  function CreateDefinition(base: Definition, overrides: Definition): Definition {
    Definition(
      Prefer(overrides.key, base.key),
      Prefer(overrides.displayLabel, base.displayLabel),
      Prefer(overrides.labelCode, base.labelCode),
      Prefer(overrides.description, base.description),
      Prefer(overrides.descriptionCode, base.descriptionCode),
      Prefer(overrides.placeholder, base.placeholder),
      Prefer(overrides.placeholderCode, base.placeholderCode),
      Prefer(overrides.selectPlaceholder, base.selectPlaceholder),
      Prefer(overrides.selectPlaceholderCode, base.selectPlaceholderCode),
      Prefer(overrides.searchPlaceholder, base.searchPlaceholder),
      Prefer(overrides.searchPlaceholderCode, base.searchPlaceholderCode),
      Prefer(overrides.valueType, base.valueType),
      Prefer(overrides.defaultValue, base.defaultValue),
      Prefer(overrides.component, base.component),
      Prefer(overrides.optionType, base.optionType),
      Prefer(overrides.columnSpan, base.columnSpan),
      Prefer(overrides.range, base.range),
      Prefer(overrides.options, base.options),
      Prefer(overrides.enumMappings, base.enumMappings),
      Prefer(overrides.minTags, base.minTags),
      Prefer(overrides.maxTags, base.maxTags),
      Prefer(overrides.showDefault, base.showDefault))
  }

  /** The merge rule: every property of the result is the override's when
      the override has it and the base's otherwise; in particular the result
      has a property exactly when the base or the override has it. */
  lemma CreateDefinitionRule(base: Definition, overrides: Definition, p: Property)
    ensures Get(CreateDefinition(base, overrides), p)
         == if Get(overrides, p).Some? then Get(overrides, p) else Get(base, p)
    ensures Get(CreateDefinition(base, overrides), p).Some? <==> Get(base, p).Some? || Get(overrides, p).Some?
  {
  }

  /** The source casts the spread to a full `SettingDefinition` without a
      check; the cast is sound whenever either side carries the required
      properties. */
  lemma CreateDefinitionKeepsCompleteness(base: Definition, overrides: Definition)
    ensures Complete(base) ==> Complete(CreateDefinition(base, overrides))
    ensures Complete(overrides) ==> Complete(CreateDefinition(base, overrides))
  {
  }

  /** At most one of the two records has the property. */
  predicate Unshared<T>(x: Option<T>, y: Option<T>) {
    x.None? || y.None?
  }

  /** Two override records that never set the same property. */
  predicate Disjoint(a: Definition, b: Definition) {
    && Unshared(a.key, b.key)
    && Unshared(a.displayLabel, b.displayLabel)
    && Unshared(a.labelCode, b.labelCode)
    && Unshared(a.description, b.description)
    && Unshared(a.descriptionCode, b.descriptionCode)
    && Unshared(a.placeholder, b.placeholder)
    && Unshared(a.placeholderCode, b.placeholderCode)
    && Unshared(a.selectPlaceholder, b.selectPlaceholder)
    && Unshared(a.selectPlaceholderCode, b.selectPlaceholderCode)
    && Unshared(a.searchPlaceholder, b.searchPlaceholder)
    && Unshared(a.searchPlaceholderCode, b.searchPlaceholderCode)
    && Unshared(a.valueType, b.valueType)
    && Unshared(a.defaultValue, b.defaultValue)
    && Unshared(a.component, b.component)
    && Unshared(a.optionType, b.optionType)
    && Unshared(a.columnSpan, b.columnSpan)
    && Unshared(a.range, b.range)
    && Unshared(a.options, b.options)
    && Unshared(a.enumMappings, b.enumMappings)
    && Unshared(a.minTags, b.minTags)
    && Unshared(a.maxTags, b.maxTags)
    && Unshared(a.showDefault, b.showDefault)
  }

  /** Both records have property `p`. */
  predicate Shared(a: Definition, b: Definition, p: Property) {
    Get(a, p).Some? && Get(b, p).Some?
  }

  /** Disjoint records never both have a property. */
  lemma DisjointHasNoSharedProperty(a: Definition, b: Definition, p: Property)
    requires Disjoint(a, b)
    ensures !Shared(a, b, p)
  {
  }

  /** Merging with `{}` gives back the base. */
  lemma EmptyOverrideIsIdentity(base: Definition)
    ensures CreateDefinition(base, Empty) == base
  {
  }

  /** Spreading overrides over `{}` copies the overrides. */
  lemma EmptyBaseCopiesOverrides(overrides: Definition)
    ensures CreateDefinition(Empty, overrides) == overrides
  {
  }

  /** Two successive merges equal one merge with the merged overrides:
      `{...{...base, ...a}, ...b} == {...base, ...{...a, ...b}}`. */
  lemma MergeAssociative(base: Definition, a: Definition, b: Definition)
    ensures CreateDefinition(CreateDefinition(base, a), b) == CreateDefinition(base, CreateDefinition(a, b))
  {
  }

  /** Override records that set different properties can be merged into one
      record in either order. */
  lemma DisjointOverridesCommute(a: Definition, b: Definition)
    requires Disjoint(a, b)
    ensures CreateDefinition(a, b) == CreateDefinition(b, a)
  {
  }

  /** Two successive merges with disjoint overrides equal one merge with
      their union, whichever of the two is applied first. */
  lemma DisjointMergesCombine(base: Definition, a: Definition, b: Definition)
    requires Disjoint(a, b)
    ensures CreateDefinition(CreateDefinition(base, a), b) == CreateDefinition(base, CreateDefinition(a, b))
    ensures CreateDefinition(CreateDefinition(base, b), a) == CreateDefinition(base, CreateDefinition(a, b))
  {
    MergeAssociative(base, a, b);
    MergeAssociative(base, b, a);
    DisjointOverridesCommute(a, b);
  }

  /** Applying the same overrides a second time changes nothing. */
  lemma MergeIdempotent(base: Definition, overrides: Definition)
    ensures CreateDefinition(CreateDefinition(base, overrides), overrides) == CreateDefinition(base, overrides)
  {
  }
}
