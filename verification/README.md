# Configuration loader of the "Live From the Mothership" artist-signup app

This project models, in Dafny, the configuration loader of the app
(`src/config/index.ts`). At start-up the loader reads a handful of
environment variables and builds one `AppConfig` object. It checks the
Supabase URL and anonymous key. It falls back to fixed literals for the
application name and URL. It derives the analytics and admin-panel flags
from their variables and always turns file uploads on. If a check fails,
it throws, and no configuration exists. The file also has an advisory
runtime check, `validateConfiguration`, and two helpers that compare
`NODE_ENV` with `'development'` and `'production'`.

The model is purely functional:

- `wrappers.dfy` (`Wrappers`): `Option` stands for `string | undefined`. `Result` stands for "returns or throws".
- `js_strings.dfy` (`JsStrings`): the JavaScript string semantics the loader depends on:
  - truthiness of `string | undefined`;
  - the `||` fallback;
  - `String.prototype.length`, which counts UTF-16 code units;
  - `String.prototype.includes`, proved equal to a reference definition of substring occurrence.
- `config.dfy` (`Config`): the environment record `Env`, the `AppConfig` datatype, the four errors with their exact messages, `ValidateUrl`, `ValidateKey`, `LoadConfig`, `ValidateConfiguration`, `IsDevelopment` and `IsProduction`.
- `config_lemmas.dfy` (`ConfigLemmas`): properties that relate several calls. These cover which error wins, the exact set of configurations that can be loaded (with a round trip through an environment), independence from unread variables, distinct error messages, key-length counting and the runtime check on loaded configurations.

The environment is an explicit `Env` record of `Option<string>` fields, one
per variable read. The WHATWG URL parser behind `new URL(url)` is not
reimplemented. It is a function parameter `parsesAsUrl: string -> bool`,
meaning "the constructor does not throw". Console output from
`validateConfiguration` is returned as a list of log entries with their
exact texts.

Dafny `string` characters are Unicode scalar values. JavaScript's
`key.length` counts UTF-16 code units, so the key check uses `Utf16Length`:
a character outside the Basic Multilingual Plane counts twice. Environment
strings in Node are decoded from UTF-8 and never contain lone surrogates, so
every real key is a Dafny string.

The analytics and admin-panel flags are on only when their variables are
non-empty strings. `Boolean('')` is false, so a variable set to the empty
string leaves its flag off. The model follows this (`Truthy`). The
file-uploads flag has no variable and is always on.

## Model

| member | source | states |
|---|---|---|
| JsStrings.Utf16Length | src/config/index.ts:37 | `key.length` counts UTF-16 code units: between the character count and twice it, and equal to the character count exactly when every character is in the Basic Multilingual Plane |
| JsStrings.OrElse | src/config/index.ts:50-51 | the or-fallback of lines 50-51 gives the value when it is a non-empty string and the fallback otherwise, so with the non-empty literal defaults the name and app URL are never empty |
| JsStrings.Includes | src/config/index.ts:64 | `url.includes('supabase.co')` is true exactly when the substring occurs at some position of the URL |
| Config.ValidateUrl | src/config/index.ts:21-31 | a missing or empty URL fails with "URL is required"; a non-empty one the parser rejects fails with "Invalid URL format"; it succeeds exactly for a non-empty parseable URL and then returns it unchanged |
| Config.ValidateKey | src/config/index.ts:33-41 | a missing or empty key fails with "`name` is required"; one shorter than 10 UTF-16 units fails with "`name` appears to be invalid (too short)"; it succeeds exactly for keys of at least 10 units and returns them unchanged |
| Config.LoadConfig | src/config/index.ts:44-58 | succeeds exactly when both URL and key are accepted; a bad URL's error is raised before the key is looked at; on success it carries the given URL and key, the name and app URL or their literal defaults, analytics and admin-panel flags that hold exactly when their variables are non-empty, and file uploads always on |
| Config.ValidateConfiguration | src/config/index.ts:61-69 | always returns true; writes the "does not appear to be valid" warning exactly when the URL lacks "supabase.co", at most once, followed by exactly one success line; never logs an error |
| Config.IsDevelopment | src/config/index.ts:77 | holds exactly when `NODE_ENV` is the string "development" |
| Config.IsProduction | src/config/index.ts:78 | holds exactly when `NODE_ENV` is the string "production", and never together with `IsDevelopment` |
| ConfigLemmas.LoadedConfigWellFormed | src/config/index.ts:44-58 | no partial configuration: every loaded configuration has a parsed non-empty URL, a key of at least 10 units, non-empty name and app URL, and file uploads on |
| ConfigLemmas.LoadConfigRoundTrip | src/config/index.ts:44-58 | every configuration of that shape is what the loader returns for the environment that spells it out, so the well-formed configurations are exactly the loadable ones |
| ConfigLemmas.UrlErrorWins | src/config/index.ts:44-48 | with a rejected URL the load fails with a URL error, and the key variable has no influence on the outcome |
| ConfigLemmas.MissingUrlIgnoresParser | src/config/index.ts:21-26 | with a missing or empty URL the outcome is "URL is required" whatever the URL parser would say |
| ConfigLemmas.NodeEnvIgnored | src/config/index.ts:44-58 | `NODE_ENV` does not affect the loaded configuration |
| ConfigLemmas.AppFieldsNeverFail | src/config/index.ts:49-52 | the application name and URL variables never change whether loading fails or which error it raises |
| ConfigLemmas.LoaderRaisesLoaderErrors | src/config/index.ts:44-48 | the loader raises only the two URL errors and the two key errors labelled "Supabase Anon Key" |
| ConfigLemmas.LoaderMessagesDistinct | src/config/index.ts:23-38 | among the errors the loader raises, equal messages mean equal errors, so the message identifies the failed check |
| ConfigLemmas.BmpKeyLengthIsCharacterCount | src/config/index.ts:37 | for a key of Basic Multilingual Plane characters only, acceptance is "at least 10 characters" |
| ConfigLemmas.KeyLengthBounds | src/config/index.ts:37-40 | a key of 10 or more characters is always accepted unchanged; a key rejected as too short has 1 to 9 characters |
| ConfigLemmas.Utf16LengthAppend | src/config/index.ts:37 | the UTF-16 length of a concatenation is the sum of the lengths |
| ConfigLemmas.AstralKeyCountsCodeUnits | src/config/index.ts:37-40 | a key of five emoji (ten code units) is accepted while a five-letter ASCII key is too short |
| ConfigLemmas.LoadedConfigPassesCheck | src/config/index.ts:61-69 | every loaded configuration passes the runtime check, which warns exactly when its URL lacks "supabase.co" |
| ConfigLemmas.ProviderUrlDrawsNoWarning | src/config/index.ts:64-68 | every URL containing "supabase.co" anywhere draws no warning; the log is the success line alone |
| ConfigLemmas.ForeignUrlWarnsButPasses | src/config/index.ts:64-69 | every parseable URL not containing "supabase.co" still loads (given a valid key), and the runtime check writes the warning then the success line and returns true |
| ConfigLemmas.LocalUrlIsForeign | src/config/index.ts:64 | the local-instance URL `http://localhost:54321` does not contain "supabase.co" |
| ConfigLemmas.DevelopmentAndProductionExclusive | src/config/index.ts:77-78 | `isDevelopment` and `isProduction` are never both true |
| ConfigLemmas.RuntimeModeCases | src/config/index.ts:77-78 | "development" selects only `isDevelopment`, "production" only `isProduction`; an unset `NODE_ENV` and every other value, "test" and "Development" among them, select neither |

## Left out

- `src/utils/supabase.ts`: every gateway operation is a single call into the external Supabase client library, which is not part of this model. The remaining glue is the singleton, `data || []`, `!error` and message prefixes around that foreign result.
- URL parsing: `new URL(url)` is the WHATWG URL parser. It is the opaque parameter `parsesAsUrl` and is not reimplemented.
- Reading `process.env` and the module-level evaluation of `config` at import time: the environment is the `Env` argument. A thrown error is a `Failure` result.
- Later changes to `config`: the source's `config` is a plain mutable object, and `validateConfiguration` reads `config.supabase.url` when it is called. The model checks the configuration as loaded. No code in the repository writes to `config` after it is built.
- Console I/O: `console.warn` and `console.log` in the runtime check are returned as `LogEntry` values, not performed.
- Config.ValidateConfiguration: does not model the `catch` branch (lines 70-73), which logs an error and returns false. Nothing in the `try` block can throw for a string URL short of a failing console, so the model states "always true".
- Lone UTF-16 surrogates: Dafny characters are Unicode scalar values. Keys holding unpaired surrogates cannot arise from Node's UTF-8 environment decoding and are not modelled.
