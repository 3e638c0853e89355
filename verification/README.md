# Request-tracing middleware and required-environment accessor

This project models the two pieces of decision logic in a small Go support library for backend services.

**The inbound HTTP request-logging middleware** (`logging/http/http.go`, module `HttpLogging`). For each request it:
- reads the tracing headers `Correlation-Id`, `Request-Id` (with fallback `Atb-Request-Id`) and `Install-Id` (with fallback `Atb-Install-Id`);
- binds some of them as string fields on a copy of the default structured logger;
- picks the outgoing correlation ID: the correlation ID, else the request ID, else a freshly generated UUID. The last case also requests a debug line;
- appends that ID under the gRPC metadata key `x-correlation-id` to the request context, and attaches the new logger to the context.

Two behaviours of the code are modelled exactly as written:
- the `requestId` field is bound only when the correlation ID is non-empty, so it can hold `""`;
- the `installId` field holds the request ID, not the install ID.

Everything else follows from the code too. The logger, the request context and the headers are values:
- a logger is the list of fields it carries, and binding a field appends one (`With`);
- a header map answers `""` for an absent header;
- the UUID the middleware would generate is passed in as `generatedId`.

**The required-environment-variable accessor** (`config/env.go`, module `Env`). The environment is a `map<string, string>`. The two panics become error results:
- `NotSet(key)` for a variable that is absent;
- `NoValue(key)` for a variable that is present but empty.

Otherwise the accessor returns the stored value. `Env.Message` gives the text each panic carries.

`HeaderGet` (`Header.Get`), `With` (`With().Str(...).Logger()`) and `LookupEnv` (`os.LookupEnv`) stand in for the library calls the code makes; they are plain definitions with no contract of their own.

Files: `wrappers.dfy` (Option and Result), `env.dfy`, `http_logging.dfy`.

## Model

| member | source | states |
|---|---|---|
| `Env.GetRequiredEnv` | config/env.go:8-18 | An absent key yields exactly `NotSet(key)`. A key mapped to `""` yields exactly `NoValue(key)`, so absence is checked first. Otherwise the result is success holding exactly the stored value, which is then non-empty. |
| `Env.GetRequiredEnvOnlyReadsKey` | config/env.go:9-17 | The result depends on the environment only through the entry for the requested key. |
| `Env.Message` | config/env.go:11-14 | The exact panic text for each failure: the fixed prefix and suffix of its kind with the variable's name between them, so the name sits at a known position. |
| `Env.MessageInjective` | config/env.go:10-14 | The two panic messages never coincide. Each message determines the variable's name, so equal messages mean equal errors. |
| `HttpLogging.ResolvedRequestId` | logging/http/http.go:25-28 | The `Request-Id` header when present and non-empty, otherwise the `Atb-Request-Id` header (or `""` when that is absent); non-empty iff one of the two headers is. |
| `HttpLogging.ResolvedInstallId` | logging/http/http.go:33-36 | The `Install-Id` header when present and non-empty, otherwise the `Atb-Install-Id` header (or `""` when that is absent); non-empty iff one of the two headers is. |
| `HttpLogging.BindTracingFields` | logging/http/http.go:21-39 | The new logger keeps the default logger's fields as a prefix. The bound fields are as follows. `correlationId` is bound iff the correlation ID is non-empty, with that value. `requestId` is bound iff the correlation ID is non-empty, with the request ID. `installId` is bound iff the install ID is non-empty, with the request ID. There are no other fields; each appears at most once, in that order; there are exactly as many as the conditions say. |
| `HttpLogging.SelectOutgoingCorrelationId` | logging/http/http.go:42-50 | The outgoing ID is the correlation ID if non-empty, else the request ID if non-empty, else the generated ID. The debug flag is set exactly in the last case. The result is non-empty whenever the generated ID is. |
| `HttpLogging.HandleRequest` | logging/http/http.go:17-54 | Whole handler, stated in terms of the headers. The request ID is `Request-Id`, or `Atb-Request-Id` when that is empty, and the install ID likewise. It gives the field-binding and ID-priority guarantees above for those resolved IDs. The debug line is requested iff neither the correlation ID nor the request ID is non-empty. One `x-correlation-id` entry holding the chosen ID is appended to the context's existing outgoing metadata. The context carries the new logger. |
| `HttpLogging.CountKeyAppend` | logging/http/http.go:51 | Appending one metadata entry adds one to the count of its key and leaves every other key's count unchanged. |
| `HttpLogging.ExactlyOneCorrelationEntry` | logging/http/http.go:51 | Each request adds exactly one `x-correlation-id` entry to the outgoing metadata, and none under any other key. |
| `HttpLogging.RequestIdFallbackIsTransparent` | logging/http/http.go:25-28 | When `Request-Id` is empty, the whole result equals the one for the same request with `Atb-Request-Id`'s value put in `Request-Id`. |
| `HttpLogging.InstallIdFallbackIsTransparent` | logging/http/http.go:33-36 | When `Install-Id` is empty, the whole result equals the one for the same request with `Atb-Install-Id`'s value put in `Install-Id`. |
| `HttpLogging.GeneratedIdUsedOnlyWithoutTracing` | logging/http/http.go:42-48 | When a correlation ID or request ID is present, the result does not depend on the generated UUID. |

## Left out

- `logging/grpc/grpc.go` (the outbound gRPC logging interceptor) is not part of this model. It only observes an opaque invoker, times it with the wall clock, and returns the invoker's error unchanged.
- `logging/logging.go` is not part of this model. `ConfigureGcpLogging` sets process-global logger settings. The context helpers each bind one field with `With().Str().Logger()` and attach the resulting logger to the context with `WithContext`.
- UUID generation is a parameter. Uniqueness of generated IDs across requests is not modelled.
- `Header.Get` is a plain map lookup. Header-name canonicalisation and multi-valued headers are not modelled.
- Logger internals are not modelled: field encoding, duplicate-key behaviour, the debug line's formatted text. Only whether the debug line is requested is kept.
- HttpLogging.HandleRequest: logger levels are not modelled. The contract always puts the new logger into the context, and `debugRequested` says only that the debug line was requested. A logger's level decides whether that line is actually written, and `WithContext` skips storing a disabled logger into a context that holds none.
- Go strings are byte strings; the model's strings are sequences of characters. Header, environment and UUID values that are not valid text are not covered. The logic only compares values with `""` and concatenates them.
- The call of `next.ServeHTTP` and the response writer are not modelled. The model ends with the context the wrapped handler receives.
- The real `os.LookupEnv` and the panic machinery are not modelled. The environment is a map, and a panic is a `Failure` result whose message is `Env.Message`.
