/** The definition model of the generation-parameter registry.

    A `SettingDefinition` describes one user-configurable generation
    parameter: its key, value type, UI component, default, numeric range,
    enumerated options and display metadata. In the source it is a plain
    object whose properties may be absent, and provider definitions are
    built by spreading one such object over another; so here every property
    is an `Option`, `None` standing for an absent property, and `Get` reads
    a definition as the object it models, property by property.

    Values that the source imports from its `types` module (the provider
    settings objects `openAISettings`, `anthropicSettings`, `googleSettings`)
    are not visible to this model; they are carried symbolically by the path
    under which they are imported, and no numeric fact is claimed about them.
 */
module Definitions {

  datatype Option<+T> = None | Some(value: T)

  /** The values of the `type` property. */
  datatype SettingType = StringType | NumberType | BooleanType | EnumType | ArrayType

  /** The values of the `component` property: which control renders it. */
  datatype ComponentKind = Input | Slider | Switch | Dropdown | Combobox | TagsInput | Textarea

  /** The values of the `optionType` property: whether the value belongs to
      the model request or to the conversation record. */
  datatype OptionKind = ModelOption | ConversationOption

  /** Members of the `ImageDetail`, `ReasoningEffort` and `ReasoningSummary`
      enumerations. Their string values live in the `types` module; here each
      member is its own constructor, so members of one enumeration are distinct. */
  datatype ImageDetail = DetailLow | DetailAuto | DetailHigh
  datatype ReasoningEffort = EffortNone | EffortLow | EffortMedium | EffortHigh
  datatype ReasoningSummary = SummaryNone | SummaryAuto | SummaryConcise | SummaryDetailed

  datatype EnumMember =
    | Detail(detail: ImageDetail)
    | Effort(effort: ReasoningEffort)
    | Summary(summary: ReasoningSummary)

  /** A bound of a `range`: a literal (an exact rational) or a value read from
      an imported settings object, named by its path. */
  datatype Bound = Lit(r: real) | ImportedBound(path: string)

  /** A `range`: `{ min, max, step }`. */
  datatype Range = Range(min: Bound, max: Bound, step: Bound)

  /** A `default` value. `Imported` is a default read from an imported
      settings object (numeric or boolean), named by its path. */
  datatype Value =
    | Num(x: real)
    | Str(s: string)
    | Bool(b: bool)
    | StrList(items: seq<string>)
    | Member(m: EnumMember)
    | Imported(path: string)

  /** A (possibly partial) `SettingDefinition`: one field per property the
      registry uses, `None` where the object lacks that property.
      `displayLabel` is the source's `label`, `valueType` its `type` and
      `defaultValue` its `default` (the three words are reserved in Dafny). */
  datatype Definition = Definition(
    key: Option<string>,
    displayLabel: Option<string>,
    labelCode: Option<bool>,
    description: Option<string>,
    descriptionCode: Option<bool>,
    placeholder: Option<string>,
    placeholderCode: Option<bool>,
    selectPlaceholder: Option<string>,
    selectPlaceholderCode: Option<bool>,
    searchPlaceholder: Option<string>,
    searchPlaceholderCode: Option<bool>,
    valueType: Option<SettingType>,
    defaultValue: Option<Value>,
    component: Option<ComponentKind>,
    optionType: Option<OptionKind>,
    columnSpan: Option<int>,
    range: Option<Range>,
    options: Option<seq<EnumMember>>,
    enumMappings: Option<map<EnumMember, string>>,
    minTags: Option<int>,
    maxTags: Option<int>,
    showDefault: Option<bool>)

  /** The object with no properties, `{}`. */
  const Empty: Definition := Definition(
    None, None, None, None, None, None, None, None, None, None, None,
    None, None, None, None, None, None, None, None, None, None, None)

  /** The property names, one per field of `Definition`. */
  datatype Property =
    | Key | Label | LabelCode | Description | DescriptionCode
    | Placeholder | PlaceholderCode | SelectPlaceholder | SelectPlaceholderCode
    | SearchPlaceholder | SearchPlaceholderCode | Type | Default
    | Component | OptionType | ColumnSpan | RangeProp | Options
    | EnumMappings | MinTags | MaxTags | ShowDefault

  /** A property value, whatever the property. */
  datatype PropertyValue =
    | Text(s: string)
    | Flag(b: bool)
    | Count(n: int)
    | TypeTag(t: SettingType)
    | DefaultOf(v: Value)
    | ComponentTag(c: ComponentKind)
    | OptionTag(o: OptionKind)
    | RangeOf(r: Range)
    | Members(members: seq<EnumMember>)
    | Mappings(labels: map<EnumMember, string>)

  /** `d[p]`: the value of property `p` of `d`, `None` (`undefined`) when
      `d` lacks it. */
  function Get(d: Definition, p: Property): Option<PropertyValue> {
    match p
    case Key => if d.key.Some? then Some(Text(d.key.value)) else None
    case Label => if d.displayLabel.Some? then Some(Text(d.displayLabel.value)) else None
    case LabelCode => if d.labelCode.Some? then Some(Flag(d.labelCode.value)) else None
    case Description => if d.description.Some? then Some(Text(d.description.value)) else None
    case DescriptionCode => if d.descriptionCode.Some? then Some(Flag(d.descriptionCode.value)) else None
    case Placeholder => if d.placeholder.Some? then Some(Text(d.placeholder.value)) else None
    case PlaceholderCode => if d.placeholderCode.Some? then Some(Flag(d.placeholderCode.value)) else None
    case SelectPlaceholder => if d.selectPlaceholder.Some? then Some(Text(d.selectPlaceholder.value)) else None
    case SelectPlaceholderCode => if d.selectPlaceholderCode.Some? then Some(Flag(d.selectPlaceholderCode.value)) else None
    case SearchPlaceholder => if d.searchPlaceholder.Some? then Some(Text(d.searchPlaceholder.value)) else None
    case SearchPlaceholderCode => if d.searchPlaceholderCode.Some? then Some(Flag(d.searchPlaceholderCode.value)) else None
    case Type => if d.valueType.Some? then Some(TypeTag(d.valueType.value)) else None
    case Default => if d.defaultValue.Some? then Some(DefaultOf(d.defaultValue.value)) else None
    case Component => if d.component.Some? then Some(ComponentTag(d.component.value)) else None
    case OptionType => if d.optionType.Some? then Some(OptionTag(d.optionType.value)) else None
    case ColumnSpan => if d.columnSpan.Some? then Some(Count(d.columnSpan.value)) else None
    case RangeProp => if d.range.Some? then Some(RangeOf(d.range.value)) else None
    case Options => if d.options.Some? then Some(Members(d.options.value)) else None
    case EnumMappings => if d.enumMappings.Some? then Some(Mappings(d.enumMappings.value)) else None
    case MinTags => if d.minTags.Some? then Some(Count(d.minTags.value)) else None
    case MaxTags => if d.maxTags.Some? then Some(Count(d.maxTags.value)) else None
    case ShowDefault => if d.showDefault.Some? then Some(Flag(d.showDefault.value)) else None
  }

  // ---------------------------------------------------------------------
  // Well-formedness: the invariants a definition is meant to satisfy.
  // ---------------------------------------------------------------------

  /** A definition usable as a `SettingDefinition`: the required properties
      `key`, `type`, `component` and `optionType` are present. */
  predicate Complete(d: Definition) {
    d.key.Some? && d.valueType.Some? && d.component.Some? && d.optionType.Some?
  }

  /** The default, when present, has the kind the `type` property announces;
      a number or boolean may also be read from an imported settings object. */
  predicate DefaultMatchesType(d: Definition) {
    d.valueType.Some? && d.defaultValue.Some? ==>
      match d.valueType.value
      case StringType => d.defaultValue.value.Str?
      case NumberType => d.defaultValue.value.Num? || d.defaultValue.value.Imported?
      case BooleanType => d.defaultValue.value.Bool? || d.defaultValue.value.Imported?
      case EnumType => d.defaultValue.value.Member?
      case ArrayType => d.defaultValue.value.StrList?
  }

  /** A range whose three bounds are literals. */
  predicate LiteralRange(d: Definition) {
    d.range.Some? && d.range.value.min.Lit? && d.range.value.max.Lit? && d.range.value.step.Lit?
  }

  /** When the range is literal, it is not empty, its step is positive and a
      literal default lies in it. Imported bounds and defaults are not
      constrained. */
  predicate LiteralBoundsHold(d: Definition) {
    LiteralRange(d) ==>
      && d.range.value.min.r <= d.range.value.max.r
      && 0.0 < d.range.value.step.r
      && (d.defaultValue.Some? && d.defaultValue.value.Num? ==>
            d.range.value.min.r <= d.defaultValue.value.x <= d.range.value.max.r)
  }

  /** An enumerated definition lists distinct options, maps exactly its
      options to display labels, and defaults (if at all) to one of them. */
  predicate EnumConsistent(d: Definition) {
    d.valueType == Some(EnumType) ==>
      && d.options.Some?
      && d.enumMappings.Some?
      && (forall i, j | 0 <= i < j < |d.options.value| :: d.options.value[i] != d.options.value[j])
      && d.enumMappings.value.Keys == (set m | m in d.options.value)
      && (d.defaultValue.Some? ==>
            d.defaultValue.value.Member? && d.defaultValue.value.m in d.options.value)
  }

  /** A tags definition bounds its tag count by `0 <= minTags <= maxTags`. */
  predicate TagBoundsHold(d: Definition) {
    d.valueType == Some(ArrayType) ==>
      d.minTags.Some? && d.maxTags.Some? && 0 <= d.minTags.value <= d.maxTags.value
  }

  /** Each type-specific property appears only on a definition of its type:
      a `range` only on a number, tag bounds only on an array, options and
      their labels only on an enumeration. */
  predicate PropertiesMatchType(d: Definition) {
    && (d.range.Some? ==> d.valueType == Some(NumberType))
    && (d.minTags.Some? || d.maxTags.Some? ==> d.valueType == Some(ArrayType))
    && (d.options.Some? || d.enumMappings.Some? ==> d.valueType == Some(EnumType))
  }

  predicate WellFormed(d: Definition) {
    && Complete(d)
    && DefaultMatchesType(d)
    && PropertiesMatchType(d)
    && LiteralBoundsHold(d)
    && EnumConsistent(d)
    && TagBoundsHold(d)
  }
}
