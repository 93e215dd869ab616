# pwnboard-rs request building, in Dafny

This project models the request-building half of the `Pwnboard` client, a
Rust library that reports events from offensive-security exercises to a
remote scoreboard. The model covers:

- the base-URI check of `Pwnboard::new`. A blank URI fails. A URI whose
  last character is `/` fails. Any other URI is stored as given.
- the `LogLevel` enum and its conversion into a JSON value. The conversion
  takes the variant's debug name and lower-cases it.
- the JSON bodies of the three reports: `boxaccess`, `credential` and
  `log`. Each starts from an object of required fields. Each optional
  argument that is present is then inserted into the object in place.
- the target URL of each report: the stored URI followed by
  `/pwn/boxaccess`, `/pwn/credential` or `/pwn/log`.

Files:

- `wrappers.dfy` (module `Wrappers`): `Option` and `Result`. `Option.OkOr`
  plays Rust's `ok_or`, and `Result` supports `:-` the way Rust code uses `?`.
- `json.dfy` (module `Json`): the slice of serde_json's `Value` that request
  bodies use. An object is an unordered `map`. It also holds the conversion of
  a string slice into an array, and its inverse.
- `pwnboard.dfy` (module `Pwnboard`): the client, its errors, log levels,
  the three request builders and the URL lemma.

The client is the datatype `Pwnboard(uri)`. Its HTTP connection handle is
not modelled. The struct is never updated in place by the library.
`new` and the level conversion are pure, so they are functions.
Each report builder updates a local `output_json` step by step with
conditional inserts, so each is a method that does the same to a local
`body`. A failed `as_object_mut()` (`?` on "Error in Creating JSON") is
modelled by `InsertField` returning `Err(JsonNotObject)`. Each builder's
failure branch is `assert false`, which proves the error path is never
taken, and each builder's contract says the result is always `Ok`.

In this source file `uri` is a public field, so a caller can overwrite it
after `new`. For that reason the builders accept any `Pwnboard`. The promise
that the route's `/` never follows another `/` is stated only for clients
that `New` built (`RouteJoinsOnce`).

## Model

| member | source | states |
|---|---|---|
| `Wrappers.Option.OkOr` | src/lib.rs:44-47 | `ok_or`: a present value becomes success carrying that value, an absent one becomes the given error (also used at lines 71, 77, 83, 111, 117, 145) |
| `Pwnboard.LastChar` | src/lib.rs:44-46 | a last character exists exactly when the string is non-empty, and it is the final element |
| `Pwnboard.New` | src/lib.rs:41-53 | `Err(BlankUri)` exactly for the empty URI; `Err(TrailingSlash)` exactly when the last character is `/`; success exactly for a non-empty URI not ending in `/`, and then the stored URI is the input verbatim |
| `Pwnboard.DebugName` | src/lib.rs:25-35 | the derived `{:?}` name of each level: at least four characters, an upper-case first letter, lower-case letters after it |
| `Pwnboard.LowerChar` | src/lib.rs:35 | one step of `to_lowercase`: an ASCII capital moves down by 32 to its lower-case letter, any other character is kept |
| `Pwnboard.ToLowercase` | src/lib.rs:35 | lower-casing keeps the length and lowers each character independently (ASCII letters move down by 32, everything else is kept) |
| `Pwnboard.LowercaseLevelNames` | src/lib.rs:26-35 | the four debug names `Loot`, `Info`, `Warn`, `Error` lower-case to `loot`, `info`, `warn`, `error` |
| `Pwnboard.LevelValue` | src/lib.rs:33-37 | each level becomes the JSON string of its lower-case name: Loot→"loot", Info→"info", Warn→"warn", Error→"error" |
| `Pwnboard.LevelValueInjective` | src/lib.rs:26-37 | two levels with the same JSON value are the same level, so no two levels collide on the wire |
| `Json.AsObject` | src/lib.rs:69-71 | `as_object_mut` yields a map exactly for an object, and then it is that object's map |
| `Pwnboard.InsertField` | src/lib.rs:68-73 | inserting into an object succeeds, adds the key with the given value and keeps every other entry; inserting into a non-object is the "Error in Creating JSON" failure |
| `Json.FromStrings` | src/lib.rs:68-72 | converting the `ips` slice gives one JSON string per element, same length, same order, each verbatim |
| `Json.AsStringsFromStrings` | src/lib.rs:68-72 | reading the strings back out of a converted slice gives exactly the original list |
| `Json.FromStringsAsStrings` | src/lib.rs:68-72 | every all-string array is the conversion of the list it carries, so the conversion is a bijection onto all-string arrays |
| `Pwnboard.BoxAccess` | src/lib.rs:56-92 | never fails; URL is the URI + `/pwn/boxaccess`; keys are exactly {ip, application} plus `ips`, `access_type`, `message` for each argument given; `ip` and `application` keep their values; `ips` is the array of the given strings; optional strings are verbatim; no value is null |
| `Pwnboard.Credential` | src/lib.rs:95-126 | never fails; URL is the URI + `/pwn/credential`; keys are exactly {ip, service, password} plus `message`, `username` for each argument given; every value verbatim; an absent option gives no key (never null) |
| `Pwnboard.Log` | src/lib.rs:129-154 | never fails; URL is the URI + `/pwn/log`; keys are exactly {ip, message, service} plus `level` when given; `level` is the level's lower-case name; no value is null |
| `Pwnboard.RouteJoinsOnce` | src/lib.rs:48-51 | for a client built by `New`, each URL (lines 88, 122, 150) is the input URI followed by the route; the character before the route's leading `/` is not `/` |

The methods `LogExample` and `CredentialExample` in `pwnboard.dfy` are
client code. From the builders' contracts alone they work out two bodies:
a `log` to `https://board.test` with level `Loot`, and a `credential` with
both options absent.

## Left out

- Sending: `reqwest::Client` construction, `.post(..).json(..).send().await` and the returned `Response` are network I/O and async code in a library outside this model. So are the transport errors that `send` can raise.
- Printing the body as JSON text, and the order of keys in it: that order depends on serde_json's configuration, so a body is an unordered map.
- Error messages: the boxed error strings become the three cases of `PwnError`.
- Pwnboard.ToLowercase: lowers ASCII letters only. Rust's `to_lowercase` also maps non-ASCII letters, but those never occur in the four debug names.
- `Json.Value` has no numbers or booleans, because no request body contains them.
- Unicode detail of `chars().last()`: a URI is a sequence of characters.
