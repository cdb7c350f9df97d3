/**
 * The delivery service of the `client` plugin. A client holds one immutable
 * configuration and serves the payload it describes through one of two
 * channels: the pull operation `get` (active mode) or the push event
 * `client/data`, whose listener exists only in passive mode. In passive mode
 * `get` answers a fixed suppressed payload; in active mode the event has no
 * listener and so no answer.
 */
module ClientService {
  import opened Wrappers
  import opened ClientConfig

  /** The payload handed to the console page. */
  datatype Data = Data(selfId: string, dataType: DataType, content: string)

  /** The payload a channel returns when it is not the one the mode selects. */
  function Suppressed(selfId: string): (d: Data)
    ensures d.selfId == selfId && d.dataType.Name() == "null" && d.content == "null"
  {
    Data(selfId, Null, "null")
  }

  /**
   * `getDate`: the payload a configuration describes. Its tag is the
   * configuration's own, never `null`, and its content is the variant's own
   * field.
   */
  function GetData(c: Config): (d: Data)
    ensures d.selfId == c.selfId
    ensures d.dataType == c.InjectType() && d.dataType != Null
    ensures d != Suppressed(c.selfId)
    ensures c.ButtonConfig? ==> d.content == c.alertText
    ensures c.TextConfig? ==> d.content == c.showText
    ensures c.HtmlConfig? ==> d.content == c.content
    ensures c.IframeConfig? ==> d.content == c.showUrl
    ensures c.MarkdownConfig? ==> d.content == c.content
  {
    match c
    case ButtonConfig(id, _, alertText) => Data(id, c.InjectType(), alertText)
    case TextConfig(id, _, showText) => Data(id, c.InjectType(), showText)
    case HtmlConfig(id, _, content) => Data(id, c.InjectType(), content)
    case IframeConfig(id, _, showUrl) => Data(id, c.InjectType(), showUrl)
    case MarkdownConfig(id, _, content) => Data(id, c.InjectType(), content)
  }

  /**
   * A constructed client: the configuration it was given, never reassigned,
   * and whether the `client/data` listener was registered.
   */
  datatype Client = Client(config: Config, dataListener: bool)

  /** The constructor: the listener is registered exactly in passive mode. */
  function NewClient(config: Config): (cl: Client)
    ensures cl.config == config
    ensures cl.dataListener <==> config.passiveMode
  {
    Client(config, config.passiveMode)
  }

  /** `get`, the pull channel: real content in active mode only. */
  function Get(cl: Client): (d: Data)
    ensures d.selfId == cl.config.selfId
    ensures d.dataType == Null <==> cl.config.passiveMode
    ensures cl.config.passiveMode ==> d.content == "null"
    ensures !cl.config.passiveMode ==> d == GetData(cl.config)
  {
    if cl.config.passiveMode then Suppressed(cl.config.selfId) else GetData(cl.config)
  }

  /**
   * The `client/data` listener: real content while the held configuration is
   * passive, the suppressed payload otherwise.
   */
  function HandleDataRequest(cl: Client): (d: Data)
    ensures d.selfId == cl.config.selfId
    ensures d.dataType == Null <==> !cl.config.passiveMode
    ensures !cl.config.passiveMode ==> d.content == "null"
    ensures cl.config.passiveMode ==> d == GetData(cl.config)
  {
    if !cl.config.passiveMode then Suppressed(cl.config.selfId) else GetData(cl.config)
  }

  /** A request the host can make of a client. */
  datatype Request = Pull | DataEvent

  /**
   * The client's answer to one request: a pull always answers; the
   * `client/data` event answers only through a registered listener.
   */
  function Respond(cl: Client, q: Request): (r: Option<Data>)
    ensures q == Pull ==> r == Some(Get(cl))
    ensures q == DataEvent ==> (r.Some? <==> cl.dataListener)
    ensures q == DataEvent && cl.dataListener ==> r == Some(HandleDataRequest(cl))
    ensures r.Some? ==> r.value.selfId == cl.config.selfId
  {
    match q
    case Pull => Some(Get(cl))
    case DataEvent => if cl.dataListener then Some(HandleDataRequest(cl)) else None
  }

  /**
   * The answers a client gives to a sequence of requests, in order: the
   * `i`-th answer is the answer to the `i`-th request alone, since the
   * configuration is never reassigned.
   */
  function Serve(cl: Client, qs: seq<Request>): (rs: seq<Option<Data>>)
    ensures |rs| == |qs|
    ensures forall i :: 0 <= i < |qs| ==> rs[i] == Respond(cl, qs[i])
  {
    if qs == [] then [] else [Respond(cl, qs[0])] + Serve(cl, qs[1..])
  }

  /** The only channel that can deliver real content for `c`. */
  function LiveChannel(c: Config): (q: Request)
    ensures q == DataEvent <==> c.passiveMode
  {
    if c.passiveMode then DataEvent else Pull
  }

  /**
   * For every configuration exactly one channel of the constructed client
   * yields the real payload: the live one; the other answers the suppressed
   * payload (pull) or nothing at all (no listener).
   */
  lemma ExactlyOneChannel(c: Config)
    ensures Respond(NewClient(c), LiveChannel(c)) == Some(GetData(c))
    ensures Respond(NewClient(c), Pull) == Some(GetData(c)) <==> !c.passiveMode
    ensures Respond(NewClient(c), DataEvent) == Some(GetData(c)) <==> c.passiveMode
    ensures c.passiveMode ==> Respond(NewClient(c), Pull) == Some(Suppressed(c.selfId))
    ensures !c.passiveMode ==> Respond(NewClient(c), DataEvent) == None
  {
  }

  /**
   * Both channels are deterministic functions of the configuration: within a
   * session, the same request always yields the same answer.
   */
  lemma SessionDeterministic(cl: Client, qs: seq<Request>, i: nat, j: nat)
    requires i < |qs| && j < |qs| && qs[i] == qs[j]
    ensures Serve(cl, qs)[i] == Serve(cl, qs)[j]
  {
  }

  /**
   * Within any session of a constructed client, real content comes only from
   * the live channel, and every answer of the live channel is real content.
   */
  lemma SessionOneChannel(c: Config, qs: seq<Request>, i: nat)
    requires i < |qs|
    ensures Serve(NewClient(c), qs)[i] == Some(GetData(c)) <==> qs[i] == LiveChannel(c)
  {
  }

  /** Every answer of a session carries the configured `selfId`. */
  lemma SessionSelfId(c: Config, qs: seq<Request>, i: nat)
    requires i < |qs| && Serve(NewClient(c), qs)[i].Some?
    ensures Serve(NewClient(c), qs)[i].value.selfId == c.selfId
  {
  }

  /** The full input that spells out a configuration field by field. */
  function InputOf(c: Config): ConfigInput
  {
    ConfigInput(Some(c.selfId), Some(c.passiveMode), c.InjectType(), Some(GetData(c).content))
  }

  /** A configuration given in full is accepted unchanged. */
  lemma ApplyDefaultsInputOf(c: Config)
    ensures ApplyDefaults(InputOf(c)) == Ok(c)
  {
  }

  /**
   * An accepted input delivers its own content field, or that variant's
   * default when the field was omitted.
   */
  lemma ApplyDefaultsContent(input: ConfigInput)
    requires ApplyDefaults(input).Ok?
    ensures GetData(ApplyDefaults(input).value).content
         == input.payload.GetOr(DefaultContent(input.injectType))
  {
  }

  /** An active text configuration is served through `get`. */
  lemma ScenarioActiveText()
    ensures Get(NewClient(TextConfig("bot1", false, "hello")))
         == Data("bot1", Text, "hello")
  {
  }

  /** A passive iframe configuration is served through the listener only. */
  lemma ScenarioPassiveIframe()
    ensures Get(NewClient(IframeConfig("bot1", true, "https://x.test")))
         == Data("bot1", Null, "null")
    ensures Respond(NewClient(IframeConfig("bot1", true, "https://x.test")), DataEvent)
         == Some(Data("bot1", Iframe, "https://x.test"))
  {
  }

  /** A button configuration without `alertText` falls back to the default. */
  lemma ScenarioButtonDefault()
    ensures ApplyDefaults(ConfigInput(Some("b"), None, Button, None))
         == Ok(ButtonConfig("b", false, DefaultAlertText))
  {
  }

  /** A configuration without `selfId` is refused for that field. */
  lemma ScenarioMissingSelfId()
    ensures ApplyDefaults(ConfigInput(None, None, Button, None)) == Err(MissingSelfId)
  {
  }
}
