/** The registry `all_pushers`, `register_pusher`, and the URI decoder `get_pusher`. */
module Registry {
  import opened Wrappers
  import opened Text
  import opened Query
  import opened Pushers

  type Entries = map<string, PusherClass>

  /** The registry at import time: the four classes under their lower-case names. */
  function InitialEntries(): (entries: Entries)
    ensures |entries| == 4
    ensures forall name :: name in entries ==> entries[name].BuiltinClass?
  {
    map[
      "webhook" := BuiltinClass(Webhook),
      "telegram" := BuiltinClass(Telegram),
      "wechat" := BuiltinClass(Wechat),
      "wirepusher" := BuiltinClass(WirePusher)
    ]
  }

  /** Every class is filed under its own registry name. */
  ghost predicate Consistent(entries: Entries)
  {
    forall name :: name in entries ==> RegistryName(entries[name]) == name
  }

  /** The registry names of the four classes, spelled out. */
  lemma WebhookName()
    ensures RegistryName(BuiltinClass(Webhook)) == "webhook"
  {
    assert Lower("Webhook") == "webhook";
  }

  lemma TelegramName()
    ensures RegistryName(BuiltinClass(Telegram)) == "telegram"
  {
    assert Lower("Telegram") == "telegram";
  }

  lemma WechatName()
    ensures RegistryName(BuiltinClass(Wechat)) == "wechat"
  {
    assert Lower("Wechat") == "wechat";
  }

  lemma WirePusherName()
    ensures RegistryName(BuiltinClass(WirePusher)) == "wirepusher"
  {
    assert "WirePusher"[4..] == "Pusher";
    assert Lower("Pusher") == "pusher";
    assert Lower("WirePusher") == "wirepusher";
  }

  /** Filing a class under its own registry name keeps the registry consistent. */
  lemma RegisterKeepsConsistent(entries: Entries, cls: PusherClass)
    requires Consistent(entries)
    ensures Consistent(entries[RegistryName(cls) := cls])
  {
  }

  /** The initial registry files each class under its `get_cls_name`. */
  lemma InitialEntriesConsistent()
    ensures Consistent(InitialEntries())
  {
    var e0: Entries := map[];
    RegisterKeepsConsistent(e0, BuiltinClass(Webhook));
    WebhookName();
    var e1 := e0[RegistryName(BuiltinClass(Webhook)) := BuiltinClass(Webhook)];
    RegisterKeepsConsistent(e1, BuiltinClass(Telegram));
    TelegramName();
    var e2 := e1[RegistryName(BuiltinClass(Telegram)) := BuiltinClass(Telegram)];
    RegisterKeepsConsistent(e2, BuiltinClass(Wechat));
    WechatName();
    var e3 := e2[RegistryName(BuiltinClass(Wechat)) := BuiltinClass(Wechat)];
    RegisterKeepsConsistent(e3, BuiltinClass(WirePusher));
    WirePusherName();
    var e4 := e3[RegistryName(BuiltinClass(WirePusher)) := BuiltinClass(WirePusher)];
    assert e4 == InitialEntries();
  }

  /** Each built-in class is in the initial registry under its own name. */
  lemma InitialEntriesHoldBuiltins(kind: Builtin)
    ensures RegistryName(BuiltinClass(kind)) in InitialEntries()
    ensures InitialEntries()[RegistryName(BuiltinClass(kind))] == BuiltinClass(kind)
  {
    match kind
    case Webhook => WebhookName();
    case Telegram => TelegramName();
    case Wechat => WechatName();
    case WirePusher => WirePusherName();
  }

  /** `get_pusher(uri)` against the registry `entries`: check the scheme, look the
      lower-cased netloc up, fold the query into keyword arguments and call the
      class, re-raising a constructor failure as a Knotify error. */
  function GetPusher(entries: Entries, uri: Uri): (r: Result<Pusher, KnotifyError>)
    ensures r.Ok? ==>
              && Lower(uri.scheme) == Scheme && Lower(uri.netloc) in entries
              && ClassOf(r.value) == entries[Lower(uri.netloc)]
              && Accepts(entries[Lower(uri.netloc)], ParseQuery(uri.query).Keys)
    ensures r.Err? ==> !r.error.InvalidPusherType?
  {
    var clsName := Lower(uri.netloc);
    if Lower(uri.scheme) != Scheme then Err(InvalidScheme)
    else if clsName !in entries then Err(InvalidClassName(uri.netloc))
    else
      match Construct(entries[clsName], ParseQuery(uri.query))
      case Ok(p) => Ok(p)
      case Err(cause) => Err(ConstructionFailed(cause))
  }

  /** The scheme is checked first: a URI whose scheme is not `knotify` (in any
      case) is refused whatever the registry holds and whatever the netloc and
      query are. */
  lemma SchemeCheckedFirst(entries: Entries, uri: Uri)
    requires Lower(uri.scheme) != Scheme
    ensures GetPusher(entries, uri) == Err(InvalidScheme)
  {
  }

  /** A name the registry does not hold is refused, naming the netloc as written. */
  lemma UnknownNameRefused(entries: Entries, uri: Uri)
    requires Lower(uri.scheme) == Scheme && Lower(uri.netloc) !in entries
    ensures GetPusher(entries, uri) == Err(InvalidClassName(uri.netloc))
  {
  }

  /** The outcome of `get_pusher`, case by case: it succeeds exactly when the
      scheme is right, the name is registered and the class accepts the keyword
      arguments, and the pusher it returns is of the registered class; a
      constructor failure comes back wrapped, with its diagnosis. */
  lemma GetPusherOutcome(entries: Entries, uri: Uri)
    ensures var r := GetPusher(entries, uri);
            var name := Lower(uri.netloc);
            var params := ParseQuery(uri.query);
            && (r.Ok? <==> Lower(uri.scheme) == Scheme && name in entries && Accepts(entries[name], params.Keys))
            && (r.Ok? ==> ClassOf(r.value) == entries[name])
            && (r.Err? && r.error.ConstructionFailed? ==>
                  && Lower(uri.scheme) == Scheme && name in entries
                  && r.error.cause == BadParameters(Required(entries[name]) - params.Keys,
                                                    params.Keys - (Required(entries[name]) + Optional(entries[name]))))
            && (r.Err? ==> !r.error.InvalidPusherType?)
  {
  }

  /** Lookup ignores case: two URIs whose netlocs agree once lower-cased decode
      to the same pusher, or are both refused. */
  lemma GetPusherIgnoresNetlocCase(entries: Entries, scheme: string, n1: string, n2: string, query: seq<Field>)
    requires Lower(n1) == Lower(n2)
    ensures GetPusher(entries, Uri(scheme, n1, query)).Ok? <==> GetPusher(entries, Uri(scheme, n2, query)).Ok?
    ensures GetPusher(entries, Uri(scheme, n1, query)).Ok? ==>
              GetPusher(entries, Uri(scheme, n1, query)) == GetPusher(entries, Uri(scheme, n2, query))
  {
  }

  lemma TeleGramLower()
    ensures Lower("TeleGram") == "telegram"
  {
    assert "TeleGram"[4..] == "Gram";
    assert Lower("Gram") == "gram";
  }

  lemma TelegramLower()
    ensures Lower("telegram") == "telegram"
  {
  }

  lemma KnotifyLower()
    ensures Lower("Knotify") == Scheme
  {
  }

  lemma SchemeLower()
    ensures Lower(Scheme) == Scheme
  {
  }

  /** `Knotify://TeleGram?token=x` and `knotify://telegram?token=x` both give the
      Telegram pusher with token `x`. */
  lemma MixedCaseTelegram()
    ensures GetPusher(InitialEntries(), Uri("Knotify", "TeleGram", [("token", "x")]))
         == GetPusher(InitialEntries(), Uri("knotify", "telegram", [("token", "x")]))
         == Ok(BuiltinPusher(Telegram, "x", None))
  {
    TeleGramLower();
    TelegramLower();
    KnotifyLower();
    SchemeLower();
    ParseSingleField("token", "x");
    TelegramByToken(Uri("Knotify", "TeleGram", [("token", "x")]));
    TelegramByToken(Uri("knotify", "telegram", [("token", "x")]));
  }

  /** Any URI with the right scheme, a netloc naming Telegram and the one field
      `token=x` decodes to the Telegram pusher with token `x`. */
  lemma TelegramByToken(uri: Uri)
    requires Lower(uri.scheme) == Scheme && Lower(uri.netloc) == "telegram"
    requires ParseQuery(uri.query) == map["token" := "x"]
    ensures GetPusher(InitialEntries(), uri) == Ok(BuiltinPusher(Telegram, "x", None))
  {
    var cls := InitialEntries()["telegram"];
    assert cls == BuiltinClass(Telegram);
    assert Construct(cls, map["token" := "x"]) == Ok(BuiltinPusher(Telegram, "x", None));
  }

  /** In a consistent registry every key is already lower-case, so a key is found
      under every spelling of it that lower-cases to it. */
  lemma ConsistentKeysAreLower(entries: Entries, name: string)
    requires Consistent(entries) && name in entries
    ensures Lower(name) == name
  {
    LowerFixesLowerStrings(name);
  }

  /** In a consistent registry the netloc is found under the class's own
      registry name, and decoding is the call of that class on the parsed query. */
  lemma ConsistentLookup(entries: Entries, uri: Uri)
    requires Consistent(entries) && Lower(uri.scheme) == Scheme && Lower(uri.netloc) in entries
    ensures var cls := entries[Lower(uri.netloc)];
            && RegistryName(cls) == Lower(uri.netloc)
            && GetPusher(entries, uri) ==
                 match Construct(cls, ParseQuery(uri.query))
                 case Ok(p) => Ok(p)
                 case Err(cause) => Err(ConstructionFailed(cause))
  {
  }

  /** Round trip: decoding the `uri` of a built-in pusher, against a registry that
      still files its class under its name, rebuilds a pusher of the same class
      with the same identity field (and `show_message` left at its default, since
      the URI does not carry it). */
  lemma RoundTrip(entries: Entries, p: Pusher)
    requires p.BuiltinPusher? && p.identity != ""
    requires RegistryName(ClassOf(p)) in entries && entries[RegistryName(ClassOf(p))] == ClassOf(p)
    ensures GetPusher(entries, UriOf(p)) == Ok(BuiltinPusher(p.kind, p.identity, None))
  {
    UriOfSerialisesIdentity(p);
    LowerIdempotent(ClassName(ClassOf(p)));
  }

  /** The round trip against the registry as it is at import time. */
  lemma RoundTripInitially(p: Pusher)
    requires p.BuiltinPusher? && p.identity != ""
    ensures GetPusher(InitialEntries(), UriOf(p)) == Ok(BuiltinPusher(p.kind, p.identity, None))
  {
    InitialEntriesHoldBuiltins(p.kind);
    RoundTrip(InitialEntries(), p);
  }

  /** A blank identity does not survive the round trip: `parse_qsl` drops the
      blank field and the constructor then misses its identity parameter. */
  lemma BlankIdentityDoesNotRoundTrip(entries: Entries, p: Pusher)
    requires p.BuiltinPusher? && p.identity == ""
    requires RegistryName(ClassOf(p)) in entries && entries[RegistryName(ClassOf(p))] == ClassOf(p)
    ensures GetPusher(entries, UriOf(p)) == Err(ConstructionFailed(BadParameters({IdentityKey(p.kind)}, {})))
  {
    UriOfSerialisesIdentity(p);
    LowerIdempotent(ClassName(ClassOf(p)));
    BuiltinNeedsIdentity(p.kind);
  }

  /** After a class is registered, every URI naming it (in any case) is built by
      that class: the newest registration wins. */
  lemma LookupAfterRegister(entries: Entries, cls: PusherClass, uri: Uri)
    requires Lower(uri.scheme) == Scheme && Lower(uri.netloc) == RegistryName(cls)
    ensures var r := GetPusher(entries[RegistryName(cls) := cls], uri);
            match Construct(cls, ParseQuery(uri.query))
            case Ok(p) => r == Ok(p)
            case Err(cause) => r == Err(ConstructionFailed(cause))
  {
  }

  /** Registering a class leaves the decoding of every other name as it was. */
  lemma RegisterLeavesOtherNames(entries: Entries, cls: PusherClass, uri: Uri)
    requires Lower(uri.netloc) != RegistryName(cls)
    ensures GetPusher(entries[RegistryName(cls) := cls], uri) == GetPusher(entries, uri)
  {
  }

  /** What `register_pusher` is given: a class, an instance of `BasePusher`, or
      anything else (known by its class name). */
  datatype Registrant =
    | ClassArg(cls: PusherClass)
    | InstanceArg(pusher: Pusher)
    | OtherArg(typeName: string)

  /** The module-level registry `all_pushers`. */
  class PusherRegistry {
    var entries: Entries

    ghost predicate Valid()
      reads this
    {
      Consistent(entries)
    }

    /** The registry as the module's import leaves it. */
    constructor ()
      ensures Valid() && entries == InitialEntries()
    {
      entries := InitialEntries();
      InitialEntriesConsistent();
    }

    /** `register_pusher(arg)`: a class is filed under its name, an instance's
        class likewise, replacing any earlier entry of that name; anything else is
        refused and the registry is left as it was. */
    method Register(arg: Registrant) returns (r: Outcome<KnotifyError>)
      requires Valid()
      modifies this
      ensures Valid()
      ensures arg.OtherArg? ==> r == Fail(InvalidPusherType(arg.typeName)) && entries == old(entries)
      ensures arg.ClassArg? ==> r == Pass && entries == old(entries)[RegistryName(arg.cls) := arg.cls]
      ensures arg.InstanceArg? ==>
                r == Pass && entries == old(entries)[RegistryName(ClassOf(arg.pusher)) := ClassOf(arg.pusher)]
    {
      match arg
      case ClassArg(cls) =>
        RegisterKeepsConsistent(entries, cls);
        entries := entries[RegistryName(cls) := cls];
        r := Pass;
      case InstanceArg(pusher) =>
        var cls := ClassOf(pusher);
        RegisterKeepsConsistent(entries, cls);
        entries := entries[RegistryName(cls) := cls];
        r := Pass;
      case OtherArg(typeName) =>
        r := Fail(InvalidPusherType(typeName));
    }
  }
}
