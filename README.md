# koishi-plugin-client: configured content delivery, modelled in Dafny

The `client` plugin for Koishi holds one configured piece of content (a button
with an alert message, a text, raw HTML, an iframe link, or markdown) and
hands it to its console page as a `Data` record `{selfId, type, content}`.
The page can pull the record through the data service's `get`, or, in passive
mode, ask for it through the `client/data` console event. In passive mode `get`
answers the suppressed record `{selfId, "null", "null"}`. In active mode no
`client/data` listener is registered, so the event gets no answer. The
listener's own suppressed branch would run only if the held configuration
stopped being passive after construction, which never happens.

The model is pure, as the code is. The configuration is set once in the
constructor and never reassigned.

- `wrappers.dfy`, module `Wrappers`: `Option` and `Result`.
- `client_config.dfy`, module `ClientConfig`: the configuration shape.
  - `DataType` has the six tags of `injectType`.
  - `Config` has five constructors, one per content variant. All five share `selfId` and `passiveMode`. There is no `null` constructor, because the intersected type admits only the five variants.
  - The default constants.
  - `ApplyDefaults` turns an input with optional fields into a `Config`.
- `client_service.dfy`, module `ClientService`: the `Data` record and the delivery logic.
  - `GetData` is `getDate`.
  - `Get` is the pull channel.
  - `HandleDataRequest` is the listener closure.
  - `NewClient` is the constructor's choice of registering the listener.
  - `Respond` and `Serve` are a host issuing one request or a sequence of requests. They are used to state determinism and the one-channel property over whole sessions. Determinism holds because the model is pure: the configuration is a value that is never reassigned, so the same request always gets the same answer.

The field `type` of `Data` is named `dataType`, because `type` is a Dafny
keyword. Tags are a datatype; `DataType.Name` gives their wire spelling.

## Model

| member | source | states |
|---|---|---|
| ClientConfig.Config.InjectType | src/index.ts:151-161 | the discriminant of a configuration is one of the five variant tags, never `null`, and each tag corresponds to exactly one variant |
| ClientConfig.ApplyDefaults | src/index.ts:82-161 | input is accepted iff `selfId` is present and the tag names a variant; a missing `selfId` is reported first; the result keeps `selfId` and the tag, and `passiveMode` defaults to `false` |
| ClientConfig.DataType.Name | src/index.ts:79 | each tag has a non-empty wire spelling, and only the `null` tag is spelled `"null"` |
| ClientConfig.NameInjective | src/index.ts:79 | the six wire spellings are pairwise distinct |
| ClientConfig.DefaultContent | src/index.ts:93-149 | the default content field per variant: `点击生效了！` (button), `注入了文本!` (text), the sample markup (html), `https://www.example.com` (iframe), and for markdown the 68-character filler written out in `DefaultMarkdownContent` |
| ClientConfig.MakeConfig | src/index.ts:151 | the variant built for a tag carries the given `selfId`, `passiveMode` and that tag |
| ClientService.ApplyDefaultsContent | src/index.ts:93-149 | an accepted input delivers its own content field, or when that is omitted the variant's default (`点击生效了！`, `注入了文本!`, the sample markup, `https://www.example.com`, the markdown filler) |
| ClientService.ApplyDefaultsInputOf | src/index.ts:151-161 | a configuration whose every field is given is accepted unchanged |
| ClientService.Suppressed | src/index.ts:33 | the suppressed record keeps `selfId` and has type and content `"null"` |
| ClientService.GetData | src/index.ts:50-63 | the payload keeps `selfId`, has the configuration's own tag, is never of type `null`, and its content is the variant's own field: `alertText`, `showText`, `content`, `showUrl`, `content` |
| ClientService.NewClient | src/index.ts:20-30 | the client keeps the configuration it is given and registers the `client/data` listener iff `passiveMode` holds |
| ClientService.Get | src/index.ts:42-48 | the pull answer keeps `selfId`; it is the suppressed record exactly in passive mode, and the mapped payload otherwise |
| ClientService.HandleDataRequest | src/index.ts:30-36 | the listener answer keeps `selfId`; it is the mapped payload while the configuration is passive, and the suppressed record otherwise |
| ClientService.Respond | src/index.ts:28-47 | a pull always answers with `get`'s record; the data event answers iff the listener is registered, and then with the listener's record; every answer keeps `selfId` |
| ClientService.Serve | src/index.ts:20-63 | a session gives one answer per request, and the i-th answer is the answer to the i-th request alone, since the configuration is never reassigned |
| ClientService.LiveChannel | src/index.ts:28-47 | the channel that carries real content is the data event exactly in passive mode |
| ClientService.ExactlyOneChannel | src/index.ts:28-47 | for every configuration the real payload comes from exactly one channel; the other yields the suppressed record (pull) or no answer (no listener) |
| ClientService.SessionDeterministic | src/index.ts:42-63 | within a session, equal requests get equal answers |
| ClientService.SessionOneChannel | src/index.ts:28-47 | in any session, an answer is the real payload iff its request went to the live channel |
| ClientService.SessionSelfId | src/index.ts:33-61 | in any session, every answer carries the configured `selfId` |
| ClientService.ScenarioActiveText | src/index.ts:42-55 | an active text configuration is delivered by `get` as `{bot1, text, hello}` |
| ClientService.ScenarioPassiveIframe | src/index.ts:28-59 | a passive iframe configuration is suppressed on `get` and delivered by the data event |
| ClientService.ScenarioButtonDefault | src/index.ts:93-96 | a button configuration without `alertText` takes the default alert text and passive mode `false` |
| ClientService.ScenarioMissingSelfId | src/index.ts:83 | a configuration without `selfId` is refused with the error for that field |

## Left out

- Registering the console page bundle (`ctx.console.addEntry` with its development and production paths) is host UI wiring and path I/O.
- The `DataService` base class and `ctx.console.addListener` are a host library. The listener is the function `HandleDataRequest` plus the `dataListener` flag that `NewClient` sets. Its removal when the plugin is unloaded is not modelled.
- `get` is `async` and returns a promise; the model returns the record itself.
- ApplyDefaults: the validation done by the schema library is not modelled. Its input is already typed: a missing value is an `Option`, and there is one content field per input. Type checks, unknown or foreign fields, and the exact error messages are not modelled. The only rejections are the two the shape itself implies: a missing `selfId`, and the tag `null`, which no content variant accepts.
- The long sample markup that is the `html` default is an uninterpreted constant, `DefaultHtmlContent`. The `markdown` default is written out.
- The `.role(...)` and `.description(...)` annotations only shape the configuration form, so they are not modelled.
- `client/index.ts` registers a Vue page in a slot. It is frontend wiring with no logic.

## Notes

- `getDate` has no `null` case. The configuration type admits only the five content variants (src/index.ts:51-62, 151), so type `null` arises only from suppression.
