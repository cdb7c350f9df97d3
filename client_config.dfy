/**
 * The configuration shape of the `client` plugin: a base record (`selfId`,
 * `passiveMode`, `injectType`) intersected with exactly one of five content
 * variants, each carrying its own string field with a fixed default.
 */
module ClientConfig {
  import opened Wrappers

  /** The six tags of `injectType` (and of `Data.type`), in declaration order. */
  datatype DataType = Button | Text | Iframe | Html | Markdown | Null {
    /** The tag as it is spelled on the wire; only `Null` is spelled "null". */
    function Name(): (s: string)
      ensures |s| > 0
      ensures s == "null" <==> this == Null
    {
      match this
      case Button => "button"
      case Text => "text"
      case Iframe => "iframe"
      case Html => "html"
      case Markdown => "markdown"
      case Null => "null"
    }
  }

  /**
   * A validated configuration. The intersected type admits exactly the five
   * content variants, so there is no constructor for the tag `null`; each
   * constructor carries the single content field its variant declares.
   */
  datatype Config =
    | ButtonConfig(selfId: string, passiveMode: bool, alertText: string)
    | TextConfig(selfId: string, passiveMode: bool, showText: string)
    | HtmlConfig(selfId: string, passiveMode: bool, content: string)
    | IframeConfig(selfId: string, passiveMode: bool, showUrl: string)
    | MarkdownConfig(selfId: string, passiveMode: bool, content: string)
  {
    /** The `injectType` discriminant of this configuration: never `null`. */
    function InjectType(): (t: DataType)
      ensures t != Null
      ensures t == Button <==> ButtonConfig?
      ensures t == Text <==> TextConfig?
      ensures t == Html <==> HtmlConfig?
      ensures t == Iframe <==> IframeConfig?
      ensures t == Markdown <==> MarkdownConfig?
    {
      match this
      case ButtonConfig(_, _, _) => Button
      case TextConfig(_, _, _) => Text
      case HtmlConfig(_, _, _) => Html
      case IframeConfig(_, _, _) => Iframe
      case MarkdownConfig(_, _, _) => Markdown
    }
  }

  /** Default of `passiveMode`. */
  const DefaultPassiveMode: bool := false
  /** Default of `alertText` for the `button` variant. */
  const DefaultAlertText: string := "点击生效了！"
  /** Default of `showText` for the `text` variant. */
  const DefaultShowText: string := "注入了文本!"
  /** Default of `showUrl` for the `iframe` variant. */
  const DefaultShowUrl: string := "https://www.example.com"
  /** Default markup of the `html` variant: a long fixed sample block, kept opaque. */
  const DefaultHtmlContent: string
  /** Default text of the `markdown` variant: sixty-eight repetitions of 水. */
  const DefaultMarkdownContent: string :=
    "水水水水水水水水水水水水水水水水水水水水水水水水水水水水水水水水水水水水水水水水水水水水水水水水水水水水水水水水水水水水水水水水水水水水"

  /** The default of the content field that the variant tagged `t` carries. */
  function DefaultContent(t: DataType): (s: string)
    requires t != Null
    ensures t == Button ==> s == "点击生效了！"
    ensures t == Text ==> s == "注入了文本!"
    ensures t == Html ==> s == DefaultHtmlContent
    ensures t == Iframe ==> s == "https://www.example.com"
    ensures t == Markdown ==> s == DefaultMarkdownContent && |s| == 68
  {
    match t
    case Button => DefaultAlertText
    case Text => DefaultShowText
    case Html => DefaultHtmlContent
    case Iframe => DefaultShowUrl
    case Markdown => DefaultMarkdownContent
  }

  /**
   * Configuration input after field typing but before defaults: `selfId`,
   * `passiveMode` and the variant's own content field may each be absent.
   * `payload` is the one content field named by `injectType`
   * (`alertText`, `showText`, `content`, `showUrl` or `content`).
   */
  datatype ConfigInput = ConfigInput(
    selfId: Option<string>,
    passiveMode: Option<bool>,
    injectType: DataType,
    payload: Option<string>)

  datatype ConfigError =
    | MissingSelfId          // `selfId` is required and has no default
    | NoMatchingVariant      // the base record admits `null`, no content variant does

  /** Builds the variant of tag `t` around its content field. */
  function MakeConfig(selfId: string, passiveMode: bool, t: DataType, field: string): (c: Config)
    requires t != Null
    ensures c.selfId == selfId && c.passiveMode == passiveMode && c.InjectType() == t
  {
    match t
    case Button => ButtonConfig(selfId, passiveMode, field)
    case Text => TextConfig(selfId, passiveMode, field)
    case Html => HtmlConfig(selfId, passiveMode, field)
    case Iframe => IframeConfig(selfId, passiveMode, field)
    case Markdown => MarkdownConfig(selfId, passiveMode, field)
  }

  /**
   * The configuration an input denotes once defaults are filled in: fails
   * when `selfId` is missing (checked first) or when the tag is `null`;
   * otherwise keeps every given field and defaults the missing ones.
   */
  function ApplyDefaults(input: ConfigInput): (r: Result<Config, ConfigError>)
    ensures r.Ok? <==> input.selfId.Some? && input.injectType != Null
    ensures input.selfId.None? ==> r == Err(MissingSelfId)
    ensures input.selfId.Some? && input.injectType == Null ==> r == Err(NoMatchingVariant)
    ensures r.Ok? ==>
      && r.value.selfId == input.selfId.value
      && r.value.passiveMode == (if input.passiveMode.Some? then input.passiveMode.value else DefaultPassiveMode)
      && r.value.InjectType() == input.injectType
  {
    if input.selfId.None? then Err(MissingSelfId)
    else if input.injectType == Null then Err(NoMatchingVariant)
    else
      Ok(MakeConfig(input.selfId.value, input.passiveMode.GetOr(DefaultPassiveMode),
                    input.injectType, input.payload.GetOr(DefaultContent(input.injectType))))
  }

  /** The six wire spellings of the tag are pairwise distinct. */
  lemma NameInjective(s: DataType, t: DataType)
    ensures s.Name() == t.Name() ==> s == t
  {
  }
}
