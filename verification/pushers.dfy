/** The pusher classes of knotify/pusher.py: their constructors, the canonical URI
    each one serialises, and the request body each `_push` assembles. */
module Pushers {
  import opened Wrappers
  import opened Text
  import opened Query

  /** The four pusher classes the module defines. */
  datatype Builtin = Webhook | Telegram | Wechat | WirePusher

  /** A class that can sit in the registry: one of the four, or any other class,
      known by its `__name__` and the keyword parameters its constructor requires
      and the ones it accepts besides. */
  datatype PusherClass =
    | BuiltinClass(kind: Builtin)
    | CustomClass(name: string, required: set<string>, optional: set<string>)

  /** A pusher instance. A built-in one holds its identity field (`url`, `token`,
      `sckey` or `pid`) and the `show_message` argument if one was given; an
      instance of another class holds the keyword arguments it was built from. */
  datatype Pusher =
    | BuiltinPusher(kind: Builtin, identity: string, showMessage: Option<string>)
    | CustomPusher(name: string, required: set<string>, optional: set<string>, args: map<string, string>)

  /** The name of the constructor parameter that identifies a built-in pusher. */
  function IdentityKey(kind: Builtin): string
  {
    match kind
    case Webhook => "url"
    case Telegram => "token"
    case Wechat => "sckey"
    case WirePusher => "pid"
  }

  const ShowMessageKey := "show_message"

  /** The class's `__name__`. */
  function ClassName(cls: PusherClass): string
  {
    match cls
    case BuiltinClass(Webhook) => "Webhook"
    case BuiltinClass(Telegram) => "Telegram"
    case BuiltinClass(Wechat) => "Wechat"
    case BuiltinClass(WirePusher) => "WirePusher"
    case CustomClass(name, _, _) => name
  }

  /** `get_cls_name`: the lower-case class name under which a class is registered. */
  function RegistryName(cls: PusherClass): (name: string)
    ensures IsLower(name)
  {
    Lower(ClassName(cls))
  }

  /** `pusher.__class__`. */
  function ClassOf(p: Pusher): PusherClass
  {
    match p
    case BuiltinPusher(kind, _, _) => BuiltinClass(kind)
    case CustomPusher(name, required, optional, _) => CustomClass(name, required, optional)
  }

  /** The keyword parameters a constructor cannot do without. */
  function Required(cls: PusherClass): set<string>
  {
    match cls
    case BuiltinClass(kind) => {IdentityKey(kind)}
    case CustomClass(_, required, _) => required
  }

  /** The keyword parameters a constructor accepts on top of the required ones. */
  function Optional(cls: PusherClass): set<string>
  {
    match cls
    case BuiltinClass(_) => {ShowMessageKey}
    case CustomClass(_, required, optional) => optional - required
  }

  /** Python binds `cls(**params)` exactly when every required parameter is given
      and no keyword is unknown to the constructor. */
  predicate Accepts(cls: PusherClass, keys: set<string>)
  {
    Required(cls) <= keys && keys <= Required(cls) + Optional(cls)
  }

  /** `cls(**params)`: the instance, or the `TypeError` the call raises. */
  function Construct(cls: PusherClass, params: map<string, string>): (r: Result<Pusher, ConstructionError>)
    ensures r.Ok? <==> Accepts(cls, params.Keys)
    ensures r.Ok? ==> ClassOf(r.value) == cls
    ensures r.Ok? && cls.BuiltinClass? ==>
              && r.value.identity == params[IdentityKey(cls.kind)]
              && r.value.showMessage == (if ShowMessageKey in params then Some(params[ShowMessageKey]) else None)
    ensures r.Ok? && cls.CustomClass? ==> r.value.args == params
    ensures r.Err? ==>
              && r.error.missing == Required(cls) - params.Keys
              && r.error.unexpected == params.Keys - (Required(cls) + Optional(cls))
              && (r.error.missing != {} || r.error.unexpected != {})
  {
    var missing := Required(cls) - params.Keys;
    var unexpected := params.Keys - (Required(cls) + Optional(cls));
    if missing != {} || unexpected != {} then
      Err(BadParameters(missing, unexpected))
    else
      match cls
      case BuiltinClass(kind) =>
        var show := if ShowMessageKey in params then Some(params[ShowMessageKey]) else None;
        Ok(BuiltinPusher(kind, params[IdentityKey(kind)], show))
      case CustomClass(name, required, optional) =>
        Ok(CustomPusher(name, required, optional, params))
  }

  /** A URI as `urlparse` splits it: the scheme as written, the netloc, and the
      query's fields. */
  datatype Uri = Uri(scheme: string, netloc: string, query: seq<Field>)

  const Scheme := "knotify"

  /** The `uri` property of a built-in pusher: `_format_uri` applied to its
      identity field alone. */
  function UriOf(p: Pusher): (u: Uri)
    requires p.BuiltinPusher?
    ensures u.scheme == Scheme && Lower(u.netloc) == RegistryName(ClassOf(p))
  {
    var name := RegistryName(ClassOf(p));
    LowerFixesLowerStrings(name);
    Uri(Scheme, name, [(IdentityKey(p.kind), p.identity)])
  }

  /** Parsing the query of a built-in pusher's URI gives back exactly its identity
      parameter, unless the identity is blank, which `parse_qsl` drops. */
  lemma UriOfSerialisesIdentity(p: Pusher)
    requires p.BuiltinPusher?
    ensures p.identity != "" ==> ParseQuery(UriOf(p).query) == map[IdentityKey(p.kind) := p.identity]
    ensures p.identity == "" ==> ParseQuery(UriOf(p).query) == map[]
  {
    if p.identity != "" {
      ParseSingleField(IdentityKey(p.kind), p.identity);
    } else {
      ParseBlankField(IdentityKey(p.kind));
    }
  }

  /** A built-in class called without keyword arguments misses its identity. */
  lemma BuiltinNeedsIdentity(kind: Builtin)
    ensures Construct(BuiltinClass(kind), map[]) == Err(BadParameters({IdentityKey(kind)}, {}))
  {
    var params: map<string, string> := map[];
    var cls := BuiltinClass(kind);
    assert params.Keys == {};
    assert Required(cls) - params.Keys == {IdentityKey(kind)};
    assert params.Keys - (Required(cls) + Optional(cls)) == {};
  }

  /** A value a caller may pass as an extra field of a push. */
  datatype Value = Str(s: string) | Int(i: int) | Bool(b: bool)

  type Fields = map<string, Value>

  /** Webhook's JSON body: the extras, with `content` defaulting to the message. */
  function WebhookBody(message: string, extras: Fields): (body: Fields)
    ensures body.Keys == extras.Keys + {"content"}
    ensures forall k :: k in extras ==> body[k] == extras[k]
    ensures "content" !in extras ==> body["content"] == Str(message)
  {
    if "content" in extras then extras else extras["content" := Str(message)]
  }

  const ParseMode := "Markdown"

  /** Telegram's JSON body: `text` and `parse_mode` overlaid by the extras. */
  function TelegramBody(message: string, extras: Fields): (body: Fields)
    ensures body.Keys == extras.Keys + {"text", "parse_mode"}
    ensures forall k :: k in extras ==> body[k] == extras[k]
    ensures "text" !in extras ==> body["text"] == Str(message)
    ensures "parse_mode" !in extras ==> body["parse_mode"] == Str(ParseMode)
  {
    map["text" := Str(message), "parse_mode" := Str(ParseMode)] + extras
  }

  /** Wechat's query parameters: the message as `text`, the extras ignored. */
  function WechatParams(message: string, extras: Fields): (params: Fields)
    ensures params.Keys == {"text"} && params["text"] == Str(message)
  {
    map["text" := Str(message)]
  }

  const WirePusherTitle := "Knotify Message"

  /** The fields WirePusher hands to `_build_body`: the extras, with `id`
      defaulting to the pusher's `pid` and `title` to a fixed title. */
  function WirePusherFields(pid: string, extras: Fields): (fields: Fields)
    ensures fields.Keys == extras.Keys + {"id", "title"}
    ensures forall k :: k in extras ==> fields[k] == extras[k]
    ensures "id" !in extras ==> fields["id"] == Str(pid)
    ensures "title" !in extras ==> fields["title"] == Str(WirePusherTitle)
  {
    var withId := if "id" in extras then extras else extras["id" := Str(pid)];
    if "title" in withId then withId else withId["title" := Str(WirePusherTitle)]
  }

  const TelegramApi := "https://tgbot.lbyczf.com/sendMessage/"
  const WechatApi := "http://sc.ftqq.com/"
  const WirePusherApi := "https://wirepusher.com/send"
  const WirePusherArgs := ["id", "title", "message", "type", "action", "image_url", "message_id"]
  const WirePusherMandatory := ["id", "title", "message"]

  /** The HTTP request a push sends, before the transport is called. WirePusher's
      query parameters are whatever `_build_body` makes of its inputs, so that
      request is given by those inputs. */
  datatype Request =
    | PostJson(url: string, json: Fields)
    | GetParams(url: string, params: Fields)
    | GetBuiltBody(url: string, allowed: seq<string>, fields: Fields, mandatory: seq<string>, message: string)

  /** `_push(message, **extras)` of a built-in pusher with the given identity.
      The identity can be read back from the request, the message reaches it
      unless the caller overrides the field that carries it, and every extra
      the backend uses is sent as given. */
  function PushRequest(kind: Builtin, identity: string, message: string, extras: Fields): (r: Request)
    ensures kind == Webhook ==>
              && r.PostJson? && r.url == identity
              && ("content" !in extras ==> "content" in r.json && r.json["content"] == Str(message))
              && forall k :: k in extras ==> k in r.json && r.json[k] == extras[k]
    ensures kind == Telegram ==>
              && r.PostJson? && TelegramApi <= r.url && r.url[|TelegramApi|..] == identity
              && ("text" !in extras ==> "text" in r.json && r.json["text"] == Str(message))
              && forall k :: k in extras ==> k in r.json && r.json[k] == extras[k]
    ensures kind == Wechat ==>
              && r.GetParams? && |r.url| == |WechatApi| + |identity| + 5
              && WechatApi <= r.url && r.url[|WechatApi|..|WechatApi| + |identity|] == identity
              && r.url[|WechatApi| + |identity|..] == ".send"
              && r.params.Keys == {"text"} && r.params["text"] == Str(message)
    ensures kind == WirePusher ==>
              && r.GetBuiltBody? && r.url == WirePusherApi && r.message == message
              && ("id" !in extras ==> "id" in r.fields && r.fields["id"] == Str(identity))
              && forall k :: k in extras ==> k in r.fields && r.fields[k] == extras[k]
  {
    match kind
    case Webhook => PostJson(identity, WebhookBody(message, extras))
    case Telegram => PostJson(TelegramApi + identity, TelegramBody(message, extras))
    case Wechat => GetParams(WechatApi + identity + ".send", WechatParams(message, extras))
    case WirePusher =>
      GetBuiltBody(WirePusherApi, WirePusherArgs, WirePusherFields(identity, extras), WirePusherMandatory, message)
  }

  /** A caller-supplied `content` is sent untouched. */
  lemma WebhookKeepsCallerContent(message: string, extras: Fields)
    requires "content" in extras
    ensures WebhookBody(message, extras) == extras
  {
  }

  /** Telegram's body is determined by the extras alone once they set both defaults. */
  lemma TelegramExtrasOverrideDefaults(message: string, extras: Fields)
    requires "text" in extras && "parse_mode" in extras
    ensures TelegramBody(message, extras) == extras
  {
    assert TelegramBody(message, extras).Keys == extras.Keys;
  }

  /** Wechat sends the same parameters whatever the extras. */
  lemma WechatIgnoresExtras(message: string, e1: Fields, e2: Fields)
    ensures WechatParams(message, e1) == WechatParams(message, e2)
  {
  }

  /** A caller-supplied `id` and `title` are sent untouched. */
  lemma WirePusherKeepsCallerFields(pid: string, extras: Fields)
    requires "id" in extras && "title" in extras
    ensures WirePusherFields(pid, extras) == extras
  {
  }

  /** Pushers of one kind with different identities send to different places:
      the three URL-addressed backends to different URLs, WirePusher (one fixed
      endpoint) to different device ids unless the caller overrides `id`. */
  lemma PushRoutesByIdentity(kind: Builtin, id1: string, id2: string, message: string, extras: Fields)
    requires id1 != id2
    ensures kind != WirePusher ==> PushRequest(kind, id1, message, extras).url != PushRequest(kind, id2, message, extras).url
    ensures kind == WirePusher && "id" !in extras ==>
              PushRequest(kind, id1, message, extras).fields != PushRequest(kind, id2, message, extras).fields
  {
  }
}
