# Access gate, proxy request assembly and settings logic of a chat/painting web client

This Dafny project models the parts of the chat-gpt web client that make
decisions. It covers six areas:

- **Server configuration** (`app/config/server.ts`). The `CODE` environment
  value becomes a set of accepted MD5 hashes through a pipeline: split on `,`,
  drop empty segments, trim, hash, collect into a set. `getServerSideConfig`
  derives `needCode` and `isVercel`, gives default provider URLs, and throws
  when `process` is undefined.
- **Edge middleware** (`middleware.ts`). The access-code gate, the choice of
  the OpenAI key or the Hugging Face token by path prefix, the "Empty Token"
  configuration error, the in-place injection of the `token` header, and the
  `getIP` fallback chain.
- **Upstream request assembly** (`app/api/common.ts`). The request description
  handed to `fetch`: URL, default and extra headers, method and body.
- **Chat configuration** (`app/store/config.ts`). `limitNumber`, `limitModel`,
  the four validators, `DEFAULT_CONFIG`, and the store's `reset` and `update`.
- **Painting settings** (`app/components/painting-settings.tsx`). `buildDict`,
  the model list and default model, the selected model's features, the
  `disabled` flags, the single-field `setOptions` updates and the values the
  controls show.
- **StateButton** (`app/components/button.tsx`). The initial index, the click
  transition, and the icon, text and title chosen by the index.

MD5 is not modelled. Every member that hashes takes it as a parameter
`md5: string -> string`. Two properties are stated as explicit requirements,
and only on the lemmas that need them:

- digests contain no white space (`DigestsHaveNoSpace`);
- the hash is injective (`Injective`).

Environment variables, the request IP, the path name and the presence of
`process` are passed in as values.

Module layout, one module per source file:

- `ServerConfig`, `Middleware`, `ApiCommon`, `AppConfig`, `PaintingSettings`
  and `StateButton` are the six source files.
- `AppConfig` also holds `PAINTING_MODELS` and `PaintingOptions`, which the
  source defines in `config.ts`.
- `Strings` holds the JavaScript string operations: `trim` with the ECMA-262
  white-space set, `split` on one character, `startsWith`, truthiness, and
  template-literal interpolation of `null`.
- `Http` holds the case-insensitive `Headers` object (its entries are stored
  lower-cased) and `NextRequest`.
- `Proxy` joins the middleware and the forwarder.
- `Wrappers` holds `Option` and `Result`.

Edge cases the proofs make explicit:

- A white-space-only `CODE` segment, alone or among other codes (as in
  `CODE = "abc, "`), passes the `!!v` filter before it is trimmed. It
  therefore admits `md5("")` (`SpaceSegmentAdmitsEmptyHash`,
  `SpaceAfterCommaAdmitsEmptyHash`), and a request with no `access-code`
  header then passes a gate that is switched on (`SpaceCodeAdmitsMissingHeader`).
- The middleware hashes the value `headers.get` returns, untrimmed, and trims
  the digest. Space, tab, CR or LF padding is stripped by header-value
  normalisation before the middleware sees it, so a code sent with such
  padding is accepted (`HttpPaddedCodeAccepted`). A value that `get` returns
  with white space around it that HTTP does not strip, such as U+00A0, is
  refused (`PaddedCodeRejected`, `NbspPaddedCodeRejected`).
- `states.indexOf(initState) ?? 0` never uses the `0`: `indexOf` returns -1
  for an absent state.
- The Hugging Face default base in `common.ts` ends in `/`, so the default URL
  has `//` before the path. This base also differs from the one in
  `server.ts`, which has no trailing slash. The forwarder reads
  `HUGGING_FACE_URL` itself.
- A missing `path` header gives the URL `<base>/null`. A missing `token`
  header gives `Bearer null`.
- `modelDict[options.model ?? defaultModel]` with both undefined looks up the
  key `"undefined"`.
- With no states, a click makes the index NaN. `% 0` is NaN in JavaScript.

The middleware chooses between two credentials: the Hugging Face token for
paths starting with `/api/hugging-face`, and the OpenAI key for every other
path.

## Model

| member | source | states |
|---|---|---|
| `ServerConfig.AccessCodes` | app/config/server.ts:20-31 | a hash is accepted iff it is `md5(trim(v))` for some non-empty `,`-segment `v` of `CODE`; an unset `CODE` accepts nothing |
| `ServerConfig.NonEmpty` | app/config/server.ts:25 | keeps exactly the non-empty segments and never adds any |
| `ServerConfig.ToSetSize` | app/config/server.ts:27 | a `Set` built from a list has no more elements than the list |
| `ServerConfig.AccessCodesSize` | app/config/server.ts:24-27 | duplicates collapse: at most one hash per non-empty segment |
| `ServerConfig.AccessCodesNonEmpty` | app/config/server.ts:42 | some hash is accepted exactly when `CODE` has a non-empty segment |
| `ServerConfig.OnlyCommasAcceptNothing` | app/config/server.ts:24-25 | `CODE = ",,"` yields the empty set, since empty segments are dropped |
| `ServerConfig.SpaceSegmentAdmitsEmptyHash` | app/config/server.ts:24-27 | any non-empty, white-space-only segment of `CODE`, wherever it stands among the others, contributes `md5("")` |
| `ServerConfig.SpaceAfterCommaAdmitsEmptyHash` | app/config/server.ts:24-27 | `CODE = "abc, "` accepts both `md5("abc")` and `md5("")` |
| `ServerConfig.GetServerSideConfig` | app/config/server.ts:33-55 | throws with the fixed message iff `process` is undefined; otherwise the codes are `ACCESS_CODES`, `needCode` holds iff some segment is non-empty, `isVercel` iff `VERCEL` is set and non-empty, each URL is the variable or its fixed default, and the tokens pass through |
| `Strings.Split` | app/config/server.ts:24 | `split(",")` gives at least one part and no part contains the separator |
| `Strings.SplitJoin` | app/config/server.ts:24 | joining the parts with the separator gives back the input |
| `Strings.SplitNoSeparator` | app/config/server.ts:24 | a string without the separator splits into itself |
| `Strings.SplitAfterSeparator` | app/config/server.ts:24 | text without a comma followed by a comma splits into that text and then the parts of the remainder |
| `Strings.Trim` | app/config/server.ts:26 | the result is the slice of the input left after cutting white space, and only white space, from both ends; it has no white space at either end |
| `Strings.TrimAllSpace` | app/config/server.ts:26 | a white-space-only string trims to "" |
| `Strings.TrimIdempotent` | app/config/server.ts:26 | the trimmed segment text that is hashed is its own trim; `PaddedCodeRejected` relies on this |
| `Strings.SplitFirst` | middleware.ts:16 | `split(",").at(0)` is the prefix before the first comma, or the whole string |
| `Middleware.Decide` | middleware.ts:22-64 | access-code 401 (`needAccessCode`) iff `needCode` and the trimmed digest of the raw header is not accepted, taking precedence; otherwise pass iff the chosen credential is non-empty, with that credential as the token; else 401 "Empty Token For: <name>" |
| `Middleware.NoCodeNeededPassesGate` | middleware.ts:32 | with `needCode` false the header (even absent) does not affect the outcome, which is never the access-code error |
| `Middleware.TokenSelection` | middleware.ts:48-49 | a path starting with `/api/hugging-face` gets the Hugging Face token; any other path gets the OpenAI key |
| `Middleware.Run` | middleware.ts:22-71 | a rejection answers 401 with the decided body and leaves the headers alone; a pass sets `token` in place, changes no other header, and forwards the headers |
| `Middleware.GetIP` | middleware.ts:11-20 | returns `req.ip`, else `x-real-ip`; if that is absent or empty and `x-forwarded-for` is non-empty, returns its first untrimmed comma segment; otherwise returns what it had |
| `Middleware.ConfiguredCodeAuthenticates` | middleware.ts:23-32 | the trimmed text of any configured segment passes the gate when digests carry no white space |
| `Middleware.OnlyConfiguredCodesAuthenticate` | middleware.ts:23-32 | with an injective hash, a code passes a needed gate only if it is the trimmed text of a configured segment |
| `Middleware.PaddedCodeRejected` | middleware.ts:23-24 | a header value, as `get` returns it, that `trim` would change is refused whenever a code is needed (with an injective hash); only white space that header normalisation keeps, such as U+00A0, can reach this |
| `Middleware.HttpPaddedCodeAccepted` | middleware.ts:23-32 | a configured code sent with space, tab, CR or LF around it passes the gate, because `get` returns it without that padding |
| `Middleware.NbspPaddedCodeRejected` | middleware.ts:23-32 | a code sent with U+00A0 in front keeps it through normalisation and is refused whenever a code is needed (with an injective hash) |
| `Http.NormalizePadding` | middleware.ts:23 | the value `headers.get` returns is the sent value with exactly its leading and trailing space, tab, CR and LF removed |
| `Middleware.SpaceCodeAdmitsMissingHeader` | middleware.ts:23-32 | when some segment of `CODE` is non-empty and white space only, the gate is on, yet a request with no access-code header passes it |
| `Http.SetHeader` | middleware.ts:53 | after `set`, a `get` of any spelling of the name gives the value, every other header reads as before, and the keys gain only the lower-cased name |
| `Http.Headers.Set` | middleware.ts:53 | `headers.set` replaces that one (lower-cased) header and keeps the others |
| `ApiCommon.Request` | app/api/common.ts:7-27 | the URL is `base + "/" + path` (`null` if absent); the keys are `Content-Type`, `Authorization` and the extra keys; extra values win; the defaults are the inbound `Content-Type` or `application/json`, and `Bearer <token>`; method and body pass through |
| `ApiCommon.OrganizationHeader` | app/api/common.ts:35-37 | the spread adds `OpenAI-Organization` exactly when the org id is non-empty |
| `ApiCommon.RequestOpenai` | app/api/common.ts:29-39 | the OpenAI base or its default; the organization header iff `OPENAI_ORG_ID` is non-empty, and no other extra header |
| `ApiCommon.RequestHuggingFace` | app/api/common.ts:41-43 | the Hugging Face base or its default; exactly the two default headers |
| `ApiCommon.HuggingFaceDefaultDoubleSlash` | app/api/common.ts:4-5 | the default Hugging Face URL has `//` before the path |
| `ApiCommon.MissingPathIsNull` | app/api/common.ts:18 | with no `path` header the URL is `<base>/null` |
| `ApiCommon.ChatCompletionExample` | app/api/common.ts:18-25 | a POST whose `path` header is `v1/chat/completions`, with a token and no content type, goes to `https://api.openai.com/v1/chat/completions` with exactly the two default headers, `Bearer <key>`, JSON content type, and the same method and body |
| `Proxy.ForwardedCredential` | middleware.ts:48-53 | after a pass, the upstream `Authorization` is `Bearer` plus the server credential of the provider chosen by the path, overriding any client `token` header |
| `AppConfig.LimitNumber` | app/store/config.ts:128-139 | the default for NaN or a non-number; otherwise `x` itself when in range, `min` below, `max` above (and `max` when `min > max`) |
| `AppConfig.LimitNumberIdempotent` | app/store/config.ts:138 | clamping a clamped value changes nothing; only the default has to lie in range for this |
| `AppConfig.SomeAvailable` | app/store/config.ts:142 | `some` is true iff an entry has that name and is available |
| `AppConfig.LimitModel` | app/store/config.ts:141-145 | returns the name iff it is an available model, otherwise "gpt-3.5-turbo"; the result is always available |
| `AppConfig.ValidateModel` | app/store/config.ts:148-150 | the name itself when it is an available model, otherwise "gpt-3.5-turbo"; always an available model |
| `AppConfig.ValidateMaxTokens` | app/store/config.ts:151-153 | 2000 for NaN or a non-number; a number in `[0, 32000]` is kept, one below becomes 0 and one above becomes 32000 |
| `AppConfig.ValidatePresencePenalty` | app/store/config.ts:154-156 | 0 for NaN or a non-number; a number in `[-2, 2]` is kept, one below becomes -2 and one above becomes 2 |
| `AppConfig.ValidateTemperature` | app/store/config.ts:157-159 | 1 for NaN or a non-number; a number in `[0, 2]` is kept, one below becomes 0 and one above becomes 2 |
| `AppConfig.DefaultModelConfigValid` | app/store/config.ts:32-37 | the default model settings are fixed points of the validators |
| `AppConfig.AppConfigStore.constructor` | app/store/config.ts:164-167 | the store starts as `DEFAULT_CONFIG` |
| `AppConfig.AppConfigStore.Reset` | app/store/config.ts:169-171 | every field is back to `DEFAULT_CONFIG` |
| `AppConfig.AppConfigStore.Update` | app/store/config.ts:173-177 | the new state is the updater applied to the old state |
| `PaintingSettings.BuildDict` | app/components/painting-settings.tsx:35-41 | the loop yields the dictionary in which each item, in list order, overwrites its key |
| `PaintingSettings.DictOfKeys` | app/components/painting-settings.tsx:37-39 | the dictionary's keys are exactly the items' keys |
| `PaintingSettings.DictOfLastWins` | app/components/painting-settings.tsx:37-39 | each entry is the last item carrying that key |
| `PaintingSettings.ModelList` | app/components/painting-settings.tsx:48-51 | the names of exactly the available models, no more names than models |
| `PaintingSettings.ModelListAppend` | app/components/painting-settings.tsx:48-51 | the filter keeps order: the list of two model lists joined is the two lists joined |
| `PaintingSettings.ModelListOrder` | app/components/painting-settings.tsx:48-51 | a model contributes its name, when available, exactly between the names of the models before and after it |
| `PaintingSettings.DefaultModel` | app/components/painting-settings.tsx:53 | undefined iff no model is available; otherwise the name of an available model |
| `PaintingSettings.DefaultModelIsFirstAvailable` | app/components/painting-settings.tsx:53 | the default is the name of the first available model |
| `PaintingSettings.ShippedModels` | app/components/painting-settings.tsx:48-53 | with `PAINTING_MODELS` the list is HuggingFace, StableDiffusion and the default is HuggingFace |
| `PaintingSettings.ModelFeatures` | app/components/painting-settings.tsx:52-54 | defined iff some model (available or not) is named `options.model ?? defaultModel`, and then the features of the last such model |
| `PaintingSettings.ControlEnabledIffSupported` | app/components/painting-settings.tsx:105-226 | a control is enabled iff the last model carrying the selected name (`options.model ?? defaultModel`) has that feature |
| `PaintingSettings.HuggingFaceDisables` | app/components/painting-settings.tsx:105-226 | with HuggingFace selected or defaulted, exactly seed, sampler and batch size are disabled |
| `PaintingSettings.StableDiffusionEnablesAll` | app/components/painting-settings.tsx:105-226 | with StableDiffusion selected no control is disabled |
| `PaintingSettings.UnknownModelDisablesAll` | app/components/painting-settings.tsx:54 | a model name no model carries leaves no features, so every control is disabled |
| `PaintingSettings.SetOption` | app/components/painting-settings.tsx:88-232 | a handler sets its one field to the new value and keeps every other field |
| `PaintingSettings.Shown` | app/components/painting-settings.tsx:87-225 | a control shows the option when set; otherwise the default model, "Euler a" for the sampler, or the field of the defaults |
| `PaintingSettings.SetThenShown` | app/components/painting-settings.tsx:87-232 | after a handler sets a field, that control shows the new value and the other controls are unchanged |
| `StateButton.IndexOf` | app/components/button.tsx:55 | the first position of the state, or -1 iff it is absent (so `?? 0` never applies) |
| `StateButton.JsRem` | app/components/button.tsx:58 | JavaScript `%`: the result differs from the dividend by a multiple of the divisor, is smaller than the divisor in magnitude, and has the dividend's sign |
| `StateButton.NextIndex` | app/components/button.tsx:58 | for `n > 0` and `i` in `[-1, n)` the next index is in `[0, n)`: `i + 1`, or 0 after the last; NaN with no states |
| `StateButton.ClicksCompose` | app/components/button.tsx:58 | `a` clicks then `b` clicks equal `a + b` clicks |
| `StateButton.ClicksUp` | app/components/button.tsx:58 | below the last state each click moves up by one |
| `StateButton.LastWraps` | app/components/button.tsx:58 | a click on the last state goes to the first |
| `StateButton.FullCycle` | app/components/button.tsx:58 | from an in-range index, `n` clicks return to the same index |
| `StateButton.Button.constructor` | app/components/button.tsx:55-56 | the index starts at `states.indexOf(initState)`, with no `onChange` calls yet |
| `StateButton.Button.HandleClick` | app/components/button.tsx:57-61 | the index moves to the next index; `onChange` receives the state at the NEW index, which with states present is a position of `states`; the index stays -1..n-1, or NaN only with no states |
| `StateButton.Button.CurrentIcon` | app/components/button.tsx:63 | the icon at the current index: defined iff icons are given and the index is a position in them, so absent at -1 and NaN |
| `StateButton.Button.CurrentText` | app/components/button.tsx:64 | the text at the current index: defined iff texts are given and the index is a position in them |
| `StateButton.Button.CurrentTitle` | app/components/button.tsx:74 | the title at the current index: defined iff titles are given and the index is a position in them |
| `StateButton.AbsentInitStateShowsNothing` | app/components/button.tsx:55-74 | a button mounted with a state that is not among its states shows no icon, text or title |
| `StateButton.TextFollowsState` | app/components/button.tsx:64 | once the index is on a state, a button with one text per state shows the text paired with that state |

## Left out

- Logging (`console.log`, the timestamp) in the middleware and the forwarder: output only.
- The `fetch` call, streaming the upstream body, the `Cache-Control` header and the route handlers' 500 responses (`app/api/*/route.ts`): network effects outside the decision logic.
- The MD5 algorithm (RFC 1321, from `spark-md5`): an uninterpreted parameter. Properties that need it to be injective or to have no white space say so in their requirements.
- ServerConfig.GetServerSideConfig: its `Failure` describes the function body on its own. With no `process` at all, the import-time read of `process.env.CODE` at `app/config/server.ts:21`, outside the `try`, throws a `ReferenceError` first, so the fixed message is never reached in that case. The Edge runtime that runs the middleware defines `process.env`, so the call at `middleware.ts:9` does not throw there.
- Reading `process.env`: values are parameters. `ACCESS_CODES` being computed once at module load, and its `catch` branch, are not modelled. `spark-md5` throws on a string with a lone surrogate (through `encodeURIComponent`); neither `process.env` values nor Dafny `string`s can hold one, so the catch is omitted.
- The Next.js `matcher` list (`middleware.ts:5-7`), which decides which paths run the middleware: routing outside the function.
- `new URL(req.url)`: the path name is given as a string.
- Header names: only ASCII lower-casing is modelled for case-insensitivity. Header values: `NormalizeValue` gives the value `get` returns for a sent value, but `HeaderMap` does not require its values to be normalised, and `SetHeader` stores the value as given. Fetch `headers.set` throws a `TypeError` for a value that contains NUL, CR or LF, or a character above U+00FF, so `middleware.ts:53` throws on such a credential instead of forwarding it; `SetHeader` and `Run` do not model that exception.
- AppConfig.LimitNumber: does not model IEEE-754 infinities, `-0`, or NaN bounds. Numbers are reals with explicit NaN and non-number cases.
- AppConfig.AppConfigStore.Update: the updater is a function on values, so the model does not capture the shallow copy (`{ ...get() }` shares the nested `modelConfig` object with the previous state and with `DEFAULT_CONFIG`). An updater that mutates that object in place would also change `DEFAULT_CONFIG`, and the model does not capture that aliasing.
- zustand's `persist` to localStorage.
- React rendering, `useMemo`/`useState` scheduling, JSX and SCSS class names, and `IconButton`. `HandleClick` uses the current index, not a stale closure from an earlier render.
- `DIFFUSION_OPTIONS_DEFAULTS` and `DIFFUSION_OPTIONS_RANGES` are imported by the painting panel but are not part of this model. The defaults are a parameter of `Shown`, and the slider ranges are not modelled.
- PaintingSettings.SetOption: a numeric field's new value is a real (`Value.Num`), but the handlers pass `valueAsNumber`, which is NaN for an empty input (e.g. the seed field, `app/components/painting-settings.tsx:198`). The model cannot store NaN in an option; that the handler changes exactly one field holds either way.
- The sampler list, except its first entry, and `toFixed(1)` on the scale label: presentational.
- The audio recorder, analyser and visualiser components: browser media APIs and canvas drawing.
- `app/global.d.ts`: type declarations only.
- The diffusion route's `requestDiffusion` is not part of this model. `common.ts` does not define it.
