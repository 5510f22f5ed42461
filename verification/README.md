# Knotify: pusher registry and URI decoder

Knotify sends a short message to one of several notification services.
Each service is a *pusher* class: Webhook (`url`), Telegram (`token`),
Wechat / Server Chan (`sckey`) and WirePusher (`pid`). A pusher can be
written as a URI `knotify://<class name>?<identity>=<value>`. `get_pusher`
turns such a URI back into a pusher. It checks the scheme, then looks up
the lower-cased netloc in the module-level registry `all_pushers`. Next it
folds the query into keyword arguments, and finally it calls the class with
them. `register_pusher` adds classes to that registry or replaces them.

This Dafny project models `knotify/pusher.py`:

- `wrappers.dfy`: `Option`, `Result`, `Outcome`, and `KnotifyError`. All
  errors of the core belong to that one family. `KnotifyError` tells apart a
  bad scheme, an unknown class name, a failed constructor call (with its
  diagnosis) and an invalid argument to `register_pusher`.
- `text.dfy`: `str.lower` on names.
- `query.dfy`: `dict(parse_qsl(query))` over already-split query fields.
  Blank values are dropped, and the last occurrence of a name wins.
- `pushers.dfy`: the four classes, what `cls(**params)` does with keyword
  arguments, the `uri` properties, and the request each `_push` assembles.
- `registry.dfy`: the initial registry, `get_pusher` as the function
  `GetPusher` of the registry map, and `register_pusher` as a method of the
  class `PusherRegistry`. That class holds the map and keeps the invariant
  that every class is filed under its own lower-case name.

Three points of the code's behaviour that the model keeps as written:

- `register_pusher` accepts any class at all (`isinstance(pusher, type)`).
  It does not check that the class is a pusher.
- Every error that `get_pusher` raises after parsing the URI is one
  exception type, `KnotifyException`. Its kinds differ only by message. The
  call to `urlparse` (knotify/pusher.py:109) runs outside the `try`, so an
  error `urlparse` itself raises escapes unwrapped (see "Left out").
- The URI produced by a pusher whose identity is the empty string does not
  decode. `parse_qsl` drops the blank field, and the constructor then misses
  its identity parameter. `BlankIdentityDoesNotRoundTrip` states this, and
  `RoundTrip` requires a non-empty identity.

## Model

| member | source | states |
|---|---|---|
| `Text.Lower` | knotify/pusher.py:110 | lower-casing keeps the length, maps every character through the one-character lower-casing, and leaves no upper-case letter |
| `Text.LowerFixesLowerStrings` | knotify/pusher.py:110 | a name with no upper-case letter is unchanged by lower-casing |
| `Text.LowerIdempotent` | knotify/pusher.py:110 | lower-casing an already lower-cased name changes nothing |
| `Query.ParseQuery` | knotify/pusher.py:116 | every keyword argument it produces has a non-blank value (blank fields are dropped) |
| `Query.ParseQueryLastWins` | knotify/pusher.py:116 | the keyword arguments are exactly the names given a non-blank value somewhere in the query, each with the value of its last non-blank occurrence |
| `Query.ParseSingleField` | knotify/pusher.py:116 | a one-field query with a non-blank value gives exactly that one keyword argument |
| `Query.ParseBlankField` | knotify/pusher.py:116 | a one-field query with a blank value gives no keyword argument |
| `Pushers.RegistryName` | knotify/pusher.py:130 | the name a class is registered under has no upper-case letter (it is the lower-cased class name) |
| `Pushers.Construct` | knotify/pusher.py:118 | `cls(**params)` succeeds iff every required parameter is given and no unknown keyword is (built-ins: the identity parameter, plus optional `show_message`); on success the pusher has class `cls`, its identity field is the identity parameter's value, and `show_message` is kept if given; on failure the error lists the missing and the unexpected names, at least one of them non-empty |
| `Pushers.BuiltinNeedsIdentity` | knotify/pusher.py:16 | calling a built-in class without arguments fails, and the only missing parameter is its identity parameter |
| `Pushers.UriOf` | knotify/pusher.py:28-30 | the `uri` of a built-in pusher (also :52-54, :71-73, :94-96) has scheme `knotify` and a netloc that lower-cases to the class's registry name |
| `Pushers.UriOfSerialisesIdentity` | knotify/pusher.py:94-96 | parsing that URI's query gives exactly one keyword argument, the class's identity parameter with the pusher's identity value (none when the identity is blank) |
| `Pushers.WebhookBody` | knotify/pusher.py:24-26 | the JSON body holds every extra unchanged, plus `content`, which is the message when the caller gave no `content` |
| `Pushers.WebhookKeepsCallerContent` | knotify/pusher.py:25 | when the caller supplies `content`, the body is exactly the extras |
| `Pushers.TelegramBody` | knotify/pusher.py:43-48 | the body holds every extra unchanged, plus `text` and `parse_mode`, which are the message and `Markdown` only where the extras do not set them |
| `Pushers.TelegramExtrasOverrideDefaults` | knotify/pusher.py:48 | extras that set both `text` and `parse_mode` are sent exactly as given |
| `Pushers.WechatParams` | knotify/pusher.py:67-69 | the query parameters are exactly `text` = message |
| `Pushers.WechatIgnoresExtras` | knotify/pusher.py:67-69 | the parameters are the same whatever extras are passed (this follows from `WechatParams` never reading them) |
| `Pushers.WirePusherFields` | knotify/pusher.py:88-90 | the fields handed to `_build_body` are the extras unchanged, plus `id` and `title`, which default to the pusher's `pid` and `Knotify Message` only when absent |
| `Pushers.WirePusherKeepsCallerFields` | knotify/pusher.py:89-90 | when the caller supplies both `id` and `title`, the fields are exactly the extras |
| `Pushers.PushRequest` | knotify/pusher.py:24-92 | the request of each `_push` carries its identity so that it can be read back: Webhook posts JSON to exactly its `url`; Telegram posts JSON to the bot API followed by the token; Wechat sends a GET to the Server Chan URL, the `sckey` and `.send`; WirePusher sends a GET to its fixed endpoint with `id` = `pid` unless the caller gives `id`. The message is carried (as `content`, `text`, `text`, or `_build_body`'s `message`) unless the caller overrides that field, and every extra that Webhook, Telegram or WirePusher uses is sent as given; Wechat's parameters are `text` alone |
| `Pushers.PushRoutesByIdentity` | knotify/pusher.py:24-92 | two pushers of one kind with different identities send to different URLs (Webhook, Telegram, Wechat), or with different `id` fields (WirePusher, when the caller does not override `id`) |
| `Registry.InitialEntries` | knotify/pusher.py:137 | the initial registry has four entries, each one a built-in class |
| `Registry.RegisterKeepsConsistent` | knotify/pusher.py:130 | filing a class under its registry name keeps every entry filed under its own name |
| `Registry.WebhookName` | knotify/pusher.py:137 | the Webhook class is registered as `webhook` |
| `Registry.TelegramName` | knotify/pusher.py:137 | the Telegram class is registered as `telegram` |
| `Registry.WechatName` | knotify/pusher.py:137 | the Wechat class is registered as `wechat` |
| `Registry.WirePusherName` | knotify/pusher.py:137 | the WirePusher class is registered as `wirepusher` |
| `Registry.InitialEntriesConsistent` | knotify/pusher.py:137 | in the initial registry, each class is filed under its lower-cased class name |
| `Registry.InitialEntriesHoldBuiltins` | knotify/pusher.py:137 | each of the four built-in classes is in the initial registry, under its own name |
| `Registry.GetPusher` | knotify/pusher.py:99-120 | a decoded pusher comes only from a URI with scheme `knotify` whose lower-cased netloc is registered and whose keyword arguments that class accepts, and it has that class; no failure is a registration error |
| `Registry.SchemeCheckedFirst` | knotify/pusher.py:109-112 | a URI whose scheme is not `knotify` (compared after lower-casing) is refused with the scheme error, whatever the registry holds and whatever the netloc and query are |
| `Registry.UnknownNameRefused` | knotify/pusher.py:113-114 | with a good scheme, a netloc whose lower-cased form is not registered is refused with the class-name error, which carries the netloc as written |
| `Registry.GetPusherOutcome` | knotify/pusher.py:99-120 | `get_pusher` succeeds iff the scheme is right, the lower-cased name is registered, and the class accepts the parsed keyword arguments; the result then has the registered class; a constructor failure comes back wrapped with its diagnosis; no failure is a registration error |
| `Registry.GetPusherIgnoresNetlocCase` | knotify/pusher.py:110-115 | two URIs whose netlocs agree after lower-casing both succeed or both fail, and give the same pusher |
| `Registry.TeleGramLower` | knotify/pusher.py:110 | `TeleGram` lower-cases to `telegram` |
| `Registry.TelegramLower` | knotify/pusher.py:110 | `telegram` lower-cases to itself |
| `Registry.KnotifyLower` | knotify/pusher.py:103 | the scheme `Knotify` of the docstring example lower-cases to `knotify` |
| `Registry.SchemeLower` | knotify/pusher.py:111 | the scheme literal is already lower-case |
| `Registry.MixedCaseTelegram` | knotify/pusher.py:103 | against the initial registry, `Knotify://TeleGram?token=x` and `knotify://telegram?token=x` both give the Telegram pusher with token `x` |
| `Registry.TelegramByToken` | knotify/pusher.py:103 | against the initial registry, any URI with scheme `knotify`, a netloc lower-casing to `telegram` and the one field `token=x` gives the Telegram pusher with token `x` |
| `Registry.ConsistentLookup` | knotify/pusher.py:113-118 | in a consistent registry, the class found for a netloc has that lower-cased netloc as its own registry name, and decoding is the call of that class on the parsed query, a failure wrapped as a Knotify error |
| `Registry.ConsistentKeysAreLower` | knotify/pusher.py:130 | every key of a consistent registry is already lower-case |
| `Registry.RoundTrip` | knotify/pusher.py:101 | decoding the `uri` of a built-in pusher with a non-blank identity, in a registry that still files its class under its name, rebuilds a pusher of the same class with the same identity, and `show_message` left at its default |
| `Registry.RoundTripInitially` | knotify/pusher.py:101 | the same round trip against the initial registry, for every built-in pusher with a non-blank identity |
| `Registry.BlankIdentityDoesNotRoundTrip` | knotify/pusher.py:116 | decoding the `uri` of a built-in pusher whose identity is blank fails: the constructor misses exactly its identity parameter |
| `Registry.LookupAfterRegister` | knotify/pusher.py:130 | after a class is filed under its name, every URI naming it (in any case) is built by that class: the newest registration wins |
| `Registry.RegisterLeavesOtherNames` | knotify/pusher.py:130 | filing a class leaves the decoding of every URI with another name unchanged |
| `Registry.PusherRegistry.constructor` | knotify/pusher.py:137 | the registry starts as the four built-in classes under their lower-case names, and is consistent |
| `Registry.PusherRegistry.Register` | knotify/pusher.py:123-134 | a class, or an instance's class, is filed under its registry name, replacing any earlier entry; every other entry is unchanged; anything else is refused with the pusher-type error and the registry is left as it was; consistency is preserved |

## Left out

- The HTTP calls (`self.s.post`, `self.s.get`), the session, and `_check_result` are network I/O. The model stops at the assembled request (`PushRequest`).
- The `show_message` printing is output only. The `show_message` argument is kept as the raw query string. How `BasePusher` reads it is not part of this model.
- `BasePusher`, `_build_body`, `_format_uri` and `get_cls_name` live in files that are not part of this model. `get_cls_name` is taken to be the lower-cased `__name__`. `_format_uri(**kw)` is taken to give `knotify://<registry name>?<kw>`.
- WirePusher's request is given by the inputs passed to `_build_body`. The filtering by `_args` and `_mandatory` is not modelled.
- `urlparse` and `parse_qsl` are replaced by a structured URI: the scheme as written, the netloc, and the query as decoded `(name, value)` fields. Percent-decoding, `+` to space, netlocs with user or port parts, and the rules for recognising a scheme are not modelled. The lower-casing of the scheme by `urlparse` and the dropping of blank values by `parse_qsl` are modelled. The urlencoding done by `_format_uri` is taken to be undone exactly by `parse_qsl` on string values. URIs that `urlparse` rejects (for example a netloc with an unbalanced `[`, as in `knotify://[telegram?token=x`) are not modelled; the `ValueError` that `urlparse` raises for them escapes `get_pusher` unwrapped, because the call at knotify/pusher.py:109 is outside the `try`.
- Registry.RoundTrip: identities are modelled as strings. The constructors accept any value (`WirePusher(pid=123)`), and such an identity comes back from the URI in its `str()` form (`"123"`), so "the same identity" holds only for string identities.
- Text.Lower: lower-cases ASCII letters only. Python's `str.lower` also lower-cases other Unicode letters.
- Pushers.UriOf: stated only for the four built-in pushers. The `uri` and `_push` of other classes are not part of this model.
- A class other than the four is modelled by its name, its required keyword parameters and its optional ones. Other failures inside its `__init__` (which `get_pusher` would also re-raise as a `KnotifyException`) are not modelled, and neither are constructors that take `**kwargs`.
- Pushers.Construct: a `TypeError` names one problem, but the model's error lists all missing and all unexpected names.
- The reflection over `BasePusher.__subclasses__()` is replaced by the explicit initial map of the four classes. These four are the subclasses defined in this file.
- Concurrency around the module-level registry is not modelled.
- The extra fields of a push take string, integer or boolean values. Other Python values are not modelled.
