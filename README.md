# marathon-apps, modelled in Dafny

`marathon-apps` is a small exporter: it fetches the application list of a
Marathon cluster (`GET <url>/v2/apps`, optionally with HTTP basic
authentication, raced against a timeout) and prints one InfluxDB
line-protocol line per application:

    marathon_apps,app_name=<name> instances=<n>i,tasks_staged=<n>i,tasks_running=<n>i,tasks_healthy=<n>i,tasks_unhealthy=<n>i

This project models the deterministic core of `marathon-apps.go`:

- `AppName.NormalizeAppName` — `normalizeAppName`: every `/` becomes `_`, then
  one leading `_` (if any) is dropped.
- `LineProtocol` — the `App` record, the line format, and `genLineProto` as
  the imperative loop it is (`GenLineProto`, proved equal to `Encode`). A
  reader for the line format it writes (`ParseLine`, `ParseText`) is the
  partner of the encoder: reading back the text gives every application's
  name and five counters, in listing order.
- `Fetcher` — the `Msg` record, the credential check and the classification
  of the HTTP outcome inside `httpGet` (`CheckCredentials`, `Classify`, the
  specification `Fetch`, and the step-by-step `HttpGet` method proved equal
  to it), and the outcome of `gatherMetrics` given which side of its
  `select` wins.
- `Strings` and `Decimal` — the parts of Go's `strings` package (`Replace`,
  `Split`, `Join`) and of `fmt`'s `%d` that the core relies on: `Split` and
  `Join` undo each other, `ParseInt` undoes `FormatInt`, and
  `ReplaceAllReplaces` states what `Replace` keeps and removes.

Points where the code's behaviour is easy to misread, which the model follows exactly:

- Credentials are split on every colon, not on the first one, so the
  password is the second colon-separated field: `"u:p:x"` authenticates as
  user `u` with password `p`.
- Non-empty credentials without any colon make the code panic when it reads
  the second field; the model states the presence of a colon as a
  precondition rather than modelling the panic.
- An empty application id makes `normalizeAppName` panic (it reads the first
  character); the model states a non-empty id as a precondition.
- The counters are Go `int`s and may be negative; they are formatted with a
  minus sign.
- An id that starts with `_` also loses that first character, because the
  check is made after the replacement.

## Model

| member | source | states |
|---|---|---|
| `AppName.NormalizeAppName` | marathon-apps.go:76-82 | for a non-empty id: the name holds no `/`; it is one character shorter exactly when the id starts with `/` or `_`; every other character keeps its place (shifted by the drop), with `/` turned into `_` |
| `AppName.NormalizeKeepsOtherChars` | marathon-apps.go:77-80 | a character other than `/` and `_` (a newline, a space, a comma) occurs in the name if and only if it occurs in the id |
| `AppName.NormalizeExamples` | marathon-apps.go:76-82 | `/team/service` and `team/service` give `team_service`, `/` gives the empty name, `//a` and `__a` give `_a`: only one leading underscore goes |
| `AppName.NormalizeCollides` | marathon-apps.go:77-80 | `/a/b`, `a/b`, `a_b` and `_a_b` all give `a_b`: distinct ids can share a name |
| `LineProtocol.Line` | marathon-apps.go:87-95 | the `Sprintf` format of one entry; its contract is carried by `LineRoundTrip` (the line reads back as the entry), `LineHasNoNewline` and `EncodeExample` |
| `LineProtocol.Encode` | marathon-apps.go:84-99 | the lines of the entries joined by newlines; its contract is carried by `EncodeEmpty`, `EncodeSplitsIntoLines`, `EncodeEnding` and `EncodeRoundTrip` |
| `LineProtocol.GenLineProto` | marathon-apps.go:84-99 | the loop that formats each entry and appends its line, followed by the join, yields exactly `Encode(data)`: the lines of the entries, in order, joined by newlines |
| `LineProtocol.EncodeEmpty` | marathon-apps.go:85-98 | the text is empty if and only if the listing is empty |
| `LineProtocol.EncodeSplitsIntoLines` | marathon-apps.go:86-98 | when no id holds a newline, the text splits on newlines into exactly one line per entry, line i being entry i's line; nothing is merged, dropped or reordered, duplicate names included |
| `LineProtocol.EncodeEnding` | marathon-apps.go:98 | a non-empty text ends with the last line's `i` suffix, never with a newline |
| `LineProtocol.LineHasNoNewline` | marathon-apps.go:87-95 | a line holds no newline unless the entry's id does, so the newline join in `genLineProto` is the only source of line breaks |
| `LineProtocol.LineRoundTrip` | marathon-apps.go:87-95 | when the name holds no space, comma, `=` or newline, reading the line gives measurement `marathon_apps`, the one tag `app_name=<name>`, and the fields `instances`, `tasks_staged`, `tasks_running`, `tasks_healthy`, `tasks_unhealthy` with the entry's values, in that order |
| `LineProtocol.EncodeRoundTrip` | marathon-apps.go:84-99 | for a non-empty listing whose names are plain, reading the text gives exactly one point per entry, point i carrying entry i's name and counters |
| `LineProtocol.EncodeExample` | marathon-apps.go:87-96 | the entry `/a/b` with counters 2, 0, 2, 2, 0 gives `marathon_apps,app_name=a_b instances=2i,tasks_staged=0i,tasks_running=2i,tasks_healthy=2i,tasks_unhealthy=0i` |
| `Decimal.FormatInt` | marathon-apps.go:88-94 | `%d` of an integer is non-empty, starts with `-` exactly when the value is negative, is otherwise made of digits, and is canonical: a negative value has at least one digit after the sign, and no spelling of two characters or more starts with `0` or with `-0` |
| `Decimal.ParseFormat` | marathon-apps.go:88-94 | reading back a `%d`-formatted integer gives the same integer |
| `Strings.ReplaceAll` | marathon-apps.go:77 | `strings.Replace(s, "/", "_", -1)`; its contract is carried by `ReplaceAllReplaces` |
| `Strings.ReplaceAllReplaces` | marathon-apps.go:77 | replacing keeps the length, leaves no `from` behind, makes `to` occur exactly when `to` or `from` occurred, and leaves every other character's occurrence unchanged |
| `Strings.Join` | marathon-apps.go:98 | `strings.Join`, with no parts giving the empty string; its contract is carried by `SplitJoin` (splitting undoes it), `Split` (it undoes splitting) and `JoinEndsWithLast` |
| `Strings.JoinEndsWithLast` | marathon-apps.go:98 | a join of one part or more ends with the last part |
| `Strings.Split` | marathon-apps.go:47 | `strings.Split` on one character: at least one piece, no piece holds the separator, and joining the pieces with it gives back the input |
| `Strings.SplitJoin` | marathon-apps.go:98 | splitting a join on its separator gives back the parts, when no part holds the separator |
| `Strings.SplitFirstTwo` | marathon-apps.go:47-49 | a string with a colon has at least two fields, and starts with field 0, a colon, field 1, then nothing or another colon |
| `Fetcher.CheckCredentials` | marathon-apps.go:46-54 | empty credentials, and only they, mean no authentication; a rejection carries `Cannot parse basic auth credentials`; an accepted user and password are non-empty, colon-free, and are the first two colon-separated fields; non-empty credentials are accepted exactly when their first two colon-separated fields are both non-empty |
| `Fetcher.CredentialsFields` | marathon-apps.go:47-54 | for credentials `user:pass` followed by nothing or by another colon, the outcome is the parse error when user or password is empty and basic authentication with exactly `user` and `pass` otherwise |
| `Fetcher.CredentialsAccepted` | marathon-apps.go:47-49 | `user:pw` gives user `user`, password `pw`; `u:p:x` gives password `p` |
| `Fetcher.CredentialsRejected` | marathon-apps.go:50-54 | `user:`, `:pw` and `u::x` are rejected with the parse error |
| `Fetcher.Classify` | marathon-apps.go:59-73 | the client's result gives no error exactly when it carries no error list and status 200, and then the response is the body; a result with an error has an empty response |
| `Fetcher.Fetch` | marathon-apps.go:46-73 | rejected credentials give the message with the parse error and no response; any message with an error has an empty response (see also `FetchIsExclusive`) |
| `Fetcher.HttpGet` | marathon-apps.go:42-74 | the step-by-step check, request, error-list copy and message filling produce exactly `Fetch(url, creds, send)` |
| `Fetcher.FetchIsExclusive` | marathon-apps.go:59-73 | a message with an error has an empty response; a message has no error exactly when the credentials were accepted, the request raised no error and the status code was 200, and then its response is the body |
| `Fetcher.RejectedCredentialsSendNothing` | marathon-apps.go:50-57 | rejected credentials give the parse error whatever the server would answer: no request is made |
| `Fetcher.TransportErrors` | marathon-apps.go:59-66 | when the request raises errors, the error text is all their messages, in order, joined by `, ` |
| `Fetcher.StatusError` | marathon-apps.go:68-72 | without transport errors, a status code other than 200 gives an empty response and the error `HTTP response code: <status>` |
| `Fetcher.GatherMetrics` | marathon-apps.go:111-130 | the text `gatherMetrics` returns, given which side of the `select` is ready first; its contract is carried by `GatherMetricsSuccess` |
| `Fetcher.GatherMetricsSuccess` | marathon-apps.go:111-130 | the result is empty when the timer wins; it is non-empty only when the reply won, the credentials were accepted, the request to `<url>/v2/apps` raised no error and returned 200, and it is then that reply's body; conversely, when the reply wins with accepted credentials and a 200 answer without errors, the result is that body |

## Left out

- The HTTP client (`gorequest`), the basic-authentication header and the
  network: the request is the parameter `send`, a function from the URL and
  the authentication to the client's result.
- The channel send at the end of `httpGet`: `HttpGet` returns the message.
- The goroutine, the channel and the `time.After` timer of `gatherMetrics`:
  which side is ready first is the parameter `race`; durations, the default
  of 15 seconds and the abandoned request are not modelled.
- `parseJSONData` (a call into `encoding/json`): the encoder accepts any
  list of `App` values whose ids are non-empty (an empty id, as left by an
  app without an `"id"` key, panics; see above); what JSON text yields which
  list is not modelled.
- `main`: flag parsing, logging setup, and printing of the text.
- Logging of errors and of the timeout: the model only returns values.
- Go's 64-bit `int`: counters are unbounded integers; `%d` is exact for every
  value, so the width would only matter to JSON decoding, which is left out.
- Go strings are bytes, the model's are characters; the patterns involved
  (`/`, `_`, `:`, `\n`) are ASCII and never occur inside a multi-byte
  character, so nothing observable changes.
- Escaping of spaces, commas and `=` in tag values, which the exporter does
  not do: the round-trip lemmas require names free of these characters.
