// The Telegram bot worker: a KV namespace mapping short codes to long URLs,
// the webhook that shortens the URLs users send, and the redirects.
module BotWorker {
  import opened Web
  import opened ShortCode

  const StartCommand := "/start"
  const AckText := "OK"
  const NotFoundText := "URL not found."
  const NotConfiguredText := "This is a Telegram URL Shortener Bot. The GitHub repository link is not configured."
  const MethodNotAllowedText := "Method Not Allowed"
  const InvalidUrlText := "That doesn't look like a valid URL. Please send a URL that starts with http:// or https://"
  const SuccessPrefix := "Success! Here is your short URL:\n"

  /** What a reply of the worker carries. `Uncaught` is the runtime's error
      reply to a handler that throws. */
  datatype BotBody = Text(text: string) | Redirect(location: string) | Uncaught

  type Reply = Response<BotBody>

  /** A message sent through the Telegram Bot API: the welcome message (its
      text and inline keyboard are fixed), or a plain text message. */
  datatype Notice = WelcomeNotice(chatId: int) | TextNotice(chatId: int, text: string)

  /** The parts of an incoming Telegram message the webhook reads. */
  datatype Message = Message(chatId: int, text: Option<string>)

  /** A webhook body as `request.json()` reads it: not JSON at all, or an
      update that may carry a message. */
  datatype Update = Unreadable | Payload(message: Option<Message>)

  /** The parts of a request the worker looks at: its method, the origin and
      the pathname of its URL, and its body. */
  datatype BotRequest = BotRequest(verb: string, origin: string, pathname: string, body: Update)

  /** The `URL_STORE` KV namespace: a map from keys to string values. */
  class KvNamespace {
    var entries: map<string, string>
    /** Every `put` so far, in order. */
    ghost var puts: seq<(string, string)>

    constructor (entries: map<string, string>)
      ensures this.entries == entries && puts == []
    {
      this.entries := entries;
      puts := [];
    }

    /** `get`: the value under `key`, or None (JavaScript null). */
    method Get(key: string) returns (v: Option<string>)
      ensures v.Some? <==> key in entries
      ensures v.Some? ==> v.value == entries[key]
    {
      v := Lookup(entries, key);
    }

    /** `put`: store `value` under `key`, replacing any value there. */
    method Put(key: string, value: string)
      modifies this
      ensures entries == old(entries)[key := value]
      ensures puts == old(puts) + [(key, value)]
    {
      entries := entries[key := value];
      puts := puts + [(key, value)];
    }
  }

  /** The Telegram Bot API, seen as the list of messages sent to it. */
  class Notifier {
    var sent: seq<Notice>

    constructor ()
      ensures sent == []
    {
      sent := [];
    }

    method Send(n: Notice)
      modifies this
      ensures sent == old(sent) + [n]
    {
      sent := sent + [n];
    }
  }

  /** The keys generateUniqueShortCode treats as in use: those whose value
      `get` returns truthy. */
  function Taken(entries: map<string, string>): (codes: set<string>)
    ensures codes <= entries.Keys
    ensures forall c :: c in codes <==> Truthy(Lookup(entries, c))
  {
    set c | c in entries && entries[c] != ""
  }

  /** The draws are 7 values each, and one of them gives a code not in use:
      the condition under which generateUniqueShortCode's loop ends. */
  predicate EventuallyFree(entries: map<string, string>, draws: seq<seq<Random>>)
  {
    && (forall k :: 0 <= k < |draws| ==> |draws[k]| == BotCodeLength)
    && FirstFree(Taken(entries), draws, 0, |draws|).Some?
  }

  /** The code generateUniqueShortCode returns: that of the first draw whose
      code is not in use. */
  function NextCode(entries: map<string, string>, draws: seq<seq<Random>>): (code: string)
    requires EventuallyFree(entries, draws)
    ensures code !in Taken(entries)
    ensures |code| == BotCodeLength && IsCode(code)
    ensures exists k :: 0 <= k < |draws| && code == CodeOf(draws[k])
  {
    CodeOf(draws[FirstFree(Taken(entries), draws, 0, |draws|).value])
  }

  /** `generateUniqueShortCode(store)`: draw 7-character codes until `get`
      returns nothing truthy for one. `draws` holds the `Math.random()` values
      of the successive draws. */
  method GenerateUniqueShortCode(store: KvNamespace, draws: seq<seq<Random>>) returns (code: string)
    requires EventuallyFree(store.entries, draws)
    ensures code == NextCode(store.entries, draws)
  {
    ghost var k := FirstFree(Taken(store.entries), draws, 0, |draws|).value;
    code := "";
    var isUnique := false;
    var i := 0;
    while !isUnique
      invariant i <= k + 1
      invariant !isUnique ==> i <= k && forall j :: 0 <= j < i ==> CodeOf(draws[j]) in Taken(store.entries)
      invariant isUnique ==> code == CodeOf(draws[k])
      decreases k + 1 - i
    {
      code := GenerateShortCode(BotCodeLength, draws[i]);
      var stored := store.Get(code);
      if !Truthy(stored) {
        isUnique := true;
      }
      i := i + 1;
    }
  }

  /** `${workerUrl}/${shortCode}`. */
  function ShortLink(origin: string, code: string): (link: string)
    ensures StartsWith(link, origin)
    ensures link[|origin|..] == "/" + code
  {
    origin + "/" + code
  }

  /** The effect of shortenAndReply: one `put` of the new code, then one
      message with the short link. */
  twostate predicate Shortened(
    store: KvNamespace, notifier: Notifier, origin: string, chatId: int, longUrl: string, draws: seq<seq<Random>>)
    requires old(EventuallyFree(store.entries, draws))
    reads store, notifier
  {
    var code := NextCode(old(store.entries), draws);
    && store.entries == old(store.entries)[code := longUrl]
    && store.puts == old(store.puts) + [(code, longUrl)]
    && notifier.sent == old(notifier.sent) + [TextNotice(chatId, SuccessPrefix + ShortLink(origin, code))]
  }

  /** `shortenAndReply`. */
  method ShortenAndReply(
    origin: string, chatId: int, longUrl: string, store: KvNamespace, notifier: Notifier, draws: seq<seq<Random>>)
    requires EventuallyFree(store.entries, draws)
    modifies store, notifier
    ensures Shortened(store, notifier, origin, chatId, longUrl, draws)
  {
    var shortCode := GenerateUniqueShortCode(store, draws);
    store.Put(shortCode, longUrl);
    var shortUrl := ShortLink(origin, shortCode);
    notifier.Send(TextNotice(chatId, SuccessPrefix + shortUrl));
  }

  /** What the webhook does with an update's message. */
  datatype Action = Ignore | SendWelcome(chatId: int) | Shorten(chatId: int, url: string) | RejectText(chatId: int)

  /** handleTelegramUpdate's dispatch: messages without text are ignored,
      "/start" is answered with the welcome message, an http(s) URL is
      shortened and any other text is answered with a hint. */
  function ActionFor(parse: UrlParser, message: Option<Message>): (a: Action)
    ensures a.Ignore? <==> message.None? || !Truthy(message.value.text)
    ensures !a.Ignore? ==> a.chatId == message.value.chatId
    ensures a.SendWelcome? <==> !a.Ignore? && message.value.text.value == StartCommand
    ensures a.Shorten? <==>
      !a.Ignore? && message.value.text.value != StartCommand && IsValidUrl(parse, message.value.text.value)
    ensures a.Shorten? ==> message.value.text == Some(a.url) && a.url != ""
  {
    if message.None? || !Truthy(message.value.text) then Ignore
    else
      var chatId := message.value.chatId;
      var text := message.value.text.value;
      if text == StartCommand then SendWelcome(chatId)
      else if IsValidUrl(parse, text) then Shorten(chatId, text)
      else RejectText(chatId)
  }

  /** The webhook can finish: when it shortens, some draw gives a free code. */
  predicate WebhookCanFinish(parse: UrlParser, update: Update, entries: map<string, string>, draws: seq<seq<Random>>)
  {
    update.Payload? && ActionFor(parse, update.message).Shorten? ==> EventuallyFree(entries, draws)
  }

  /** handleTelegramUpdate's reply and effect. */
  twostate predicate UpdateHandled(
    parse: UrlParser, origin: string, update: Update, store: KvNamespace, notifier: Notifier,
    draws: seq<seq<Random>>, new resp: Reply)
    requires old(WebhookCanFinish(parse, update, store.entries, draws))
    reads store, notifier
  {
    match update
    case Unreadable =>
      resp == Response(InternalServerError, Uncaught) && unchanged(store, notifier)
    case Payload(message) =>
      && resp == Response(Ok, Text(AckText))
      && match ActionFor(parse, message)
        case Ignore => unchanged(store, notifier)
        case SendWelcome(chatId) =>
          unchanged(store) && notifier.sent == old(notifier.sent) + [WelcomeNotice(chatId)]
        case RejectText(chatId) =>
          unchanged(store) && notifier.sent == old(notifier.sent) + [TextNotice(chatId, InvalidUrlText)]
        case Shorten(chatId, url) =>
          Shortened(store, notifier, origin, chatId, url, draws)
  }

  /** `handleTelegramUpdate`. `origin` is that of the request's URL. */
  method HandleTelegramUpdate(
    parse: UrlParser, origin: string, update: Update, store: KvNamespace, notifier: Notifier,
    draws: seq<seq<Random>>) returns (resp: Reply)
    requires WebhookCanFinish(parse, update, store.entries, draws)
    modifies store, notifier
    ensures UpdateHandled(parse, origin, update, store, notifier, draws, resp)
  {
    if update.Unreadable? {
      return Response(InternalServerError, Uncaught);
    }
    var message := update.message;
    if message.Some? && Truthy(message.value.text) {
      var chatId := message.value.chatId;
      var text := message.value.text.value;
      if text == StartCommand {
        notifier.Send(WelcomeNotice(chatId));
      } else if IsValidUrl(parse, text) {
        ShortenAndReply(origin, chatId, text, store, notifier, draws);
      } else {
        notifier.Send(TextNotice(chatId, InvalidUrlText));
      }
    }
    resp := Response(Ok, Text(AckText));
  }

  /** `Response.redirect(url, status)`: it throws when `url` does not parse,
      and otherwise sends the parsed URL's serialisation. */
  function RedirectTo(parse: UrlParser, url: string, status: int): (r: Reply)
    ensures r.status == status <==> parse(url).Some? || status == InternalServerError
    ensures parse(url).Some? ==> r.body == Redirect(parse(url).value.href)
    ensures parse(url).None? ==> r.body == Uncaught
  {
    match parse(url)
    case Some(u) => Response(status, Redirect(u.href))
    case None => Response(InternalServerError, Uncaught)
  }

  /** The reply of handleRedirect, given what `get` returned: a 301 to a
      truthy stored value, 404 otherwise. */
  function RedirectReply(parse: UrlParser, stored: Option<string>): (r: Reply)
    ensures r.status == NotFound <==> !Truthy(stored)
    ensures r.status == MovedPermanently <==> Truthy(stored) && parse(stored.value).Some?
    ensures r.status == MovedPermanently ==> r.body == Redirect(parse(stored.value).value.href)
  {
    if Truthy(stored) then RedirectTo(parse, stored.value, MovedPermanently)
    else Response(NotFound, Text(NotFoundText))
  }

  /** `handleRedirect`: it only reads the store. */
  method HandleRedirect(parse: UrlParser, shortCode: string, store: KvNamespace) returns (resp: Reply)
    ensures resp == RedirectReply(parse, Lookup(store.entries, shortCode))
    ensures resp.status == MovedPermanently ==> shortCode in Taken(store.entries)
  {
    var longUrl := store.Get(shortCode);
    if Truthy(longUrl) {
      resp := RedirectTo(parse, longUrl.value, MovedPermanently);
    } else {
      resp := Response(NotFound, Text(NotFoundText));
    }
  }

  /** The reply to GET on the root: a 302 to the repository when its URL is
      configured, a plain explanation otherwise. */
  function RootReply(parse: UrlParser, repoUrl: Option<string>): (r: Reply)
    ensures !Truthy(repoUrl) ==> r == Response(Ok, Text(NotConfiguredText))
    ensures r.status == Found <==> Truthy(repoUrl) && parse(repoUrl.value).Some?
    ensures r.status == Found ==> r.body == Redirect(parse(repoUrl.value).value.href)
  {
    if Truthy(repoUrl) then RedirectTo(parse, repoUrl.value, Found)
    else Response(Ok, Text(NotConfiguredText))
  }

  /** Where `fetch` sends a request. */
  datatype BotRoute = Webhook | RedirectRoute(code: string) | Root | NotAllowed

  /** `fetch`'s dispatch on the method and on `pathname.slice(1)`. */
  function RouteOf(verb: string, pathname: string): (r: BotRoute)
    ensures r.Webhook? <==> verb == "POST"
    ensures r.RedirectRoute? <==> verb == "GET" && |pathname| > 1
    ensures r.RedirectRoute? ==> r.code == pathname[1..] && r.code != ""
    ensures r.Root? <==> verb == "GET" && |pathname| <= 1
    ensures r.NotAllowed? <==> verb != "POST" && verb != "GET"
  {
    var path := if pathname == "" then "" else pathname[1..];
    if verb == "POST" then Webhook
    else if verb == "GET" then
      if path != "" then RedirectRoute(path) else Root
    else NotAllowed
  }

  /** `fetch`. `repoUrl` is the GITHUB_REPO_URL setting. */
  method Fetch(
    parse: UrlParser, req: BotRequest, repoUrl: Option<string>, store: KvNamespace, notifier: Notifier,
    draws: seq<seq<Random>>) returns (resp: Reply)
    requires RouteOf(req.verb, req.pathname).Webhook? ==> WebhookCanFinish(parse, req.body, store.entries, draws)
    modifies store, notifier
    ensures match RouteOf(req.verb, req.pathname)
      case Webhook => UpdateHandled(parse, req.origin, req.body, store, notifier, draws, resp)
      case RedirectRoute(code) =>
        resp == RedirectReply(parse, Lookup(store.entries, code)) && unchanged(store, notifier)
      case Root => resp == RootReply(parse, repoUrl) && unchanged(store, notifier)
      case NotAllowed =>
        resp == Response(MethodNotAllowed, Text(MethodNotAllowedText)) && unchanged(store, notifier)
  {
    var path := if req.pathname == "" then "" else req.pathname[1..];
    if req.verb == "POST" {
      resp := HandleTelegramUpdate(parse, req.origin, req.body, store, notifier, draws);
      return;
    }
    if req.verb == "GET" {
      if path != "" {
        resp := HandleRedirect(parse, path, store);
      } else {
        resp := RootReply(parse, repoUrl);
      }
      return;
    }
    resp := Response(MethodNotAllowed, Text(MethodNotAllowedText));
  }

  /** Every value in the store is a non-empty http(s) URL. */
  predicate StoreValid(parse: UrlParser, entries: map<string, string>)
  {
    forall k :: k in entries ==> entries[k] != "" && IsValidUrl(parse, entries[k])
  }

  /** In a store the bot wrote, `get`'s truthiness test is a presence test:
      the codes in use are exactly the stored keys. */
  lemma TakenIsStoredKeys(parse: UrlParser, entries: map<string, string>)
    requires StoreValid(parse, entries)
    ensures Taken(entries) == entries.Keys
  {
    assert forall c :: c in entries.Keys ==> c in Taken(entries);
  }

  /** The webhook stores only what passed isValidUrl, so it keeps the store
      valid. */
  lemma WebhookKeepsStoreValid(parse: UrlParser, message: Option<Message>, entries: map<string, string>, draws: seq<seq<Random>>)
    requires StoreValid(parse, entries)
    requires ActionFor(parse, message).Shorten? && EventuallyFree(entries, draws)
    ensures StoreValid(parse, entries[NextCode(entries, draws) := ActionFor(parse, message).url])
  {
  }

  /** Shortening overwrites no live link: every code in use keeps its URL,
      and exactly one code comes into use. */
  lemma ShortenKeepsLiveLinks(entries: map<string, string>, draws: seq<seq<Random>>, longUrl: string)
    requires EventuallyFree(entries, draws) && longUrl != ""
    ensures var code := NextCode(entries, draws);
      && (forall c :: c in Taken(entries) ==> entries[code := longUrl][c] == entries[c])
      && Taken(entries[code := longUrl]) == Taken(entries) + {code}
  {
    var code := NextCode(entries, draws);
    var after := entries[code := longUrl];
    assert forall c :: c in Taken(after) <==> c in Taken(entries) || c == code;
  }

  /** The round trip of a short link: after the webhook stores `longUrl`
      under a new code, GET on that code's path redirects to it. */
  lemma ShortLinkRedirects(parse: UrlParser, origin: string, entries: map<string, string>, draws: seq<seq<Random>>, longUrl: string)
    requires EventuallyFree(entries, draws) && longUrl != "" && IsValidUrl(parse, longUrl)
    ensures var code := NextCode(entries, draws);
      && ShortLink(origin, code)[|origin|..] == "/" + code
      && RouteOf("GET", "/" + code) == RedirectRoute(code)
      && RedirectReply(parse, Lookup(entries[code := longUrl], code))
        == Response(MovedPermanently, Redirect(parse(longUrl).value.href))
  {
    var code := NextCode(entries, draws);
    assert ("/" + code)[1..] == code;
  }

  /** In a valid store every key is served by a 301, and every other path
      by a 404. */
  lemma ValidStoreRedirects(parse: UrlParser, entries: map<string, string>, code: string)
    requires StoreValid(parse, entries)
    ensures code in entries ==>
      RedirectReply(parse, Lookup(entries, code)) == Response(MovedPermanently, Redirect(parse(entries[code]).value.href))
    ensures code !in entries ==> RedirectReply(parse, Lookup(entries, code)) == Response(NotFound, Text(NotFoundText))
  {
  }

  /** A user's round trip: send a URL to the bot, read the short link from
      its reply, then GET the link's path. The webhook is acknowledged and
      the visit is a 301 to the URL. */
  method SendThenFollow(
    parse: UrlParser, origin: string, chatId: int, url: string, store: KvNamespace, notifier: Notifier,
    draws: seq<seq<Random>>) returns (ack: Reply, followed: Reply)
    requires EventuallyFree(store.entries, draws)
    requires url != "" && url != StartCommand && IsValidUrl(parse, url)
    modifies store, notifier
    ensures ack == Response(Ok, Text(AckText))
    ensures var code := NextCode(old(store.entries), draws);
      && store.entries == old(store.entries)[code := url]
      && notifier.sent == old(notifier.sent) + [TextNotice(chatId, SuccessPrefix + ShortLink(origin, code))]
      && followed == Response(MovedPermanently, Redirect(parse(url).value.href))
  {
    ghost var code := NextCode(store.entries, draws);
    ShortLinkRedirects(parse, origin, store.entries, draws, url);
    var update := Payload(Some(Message(chatId, Some(url))));
    ack := Fetch(parse, BotRequest("POST", origin, "/", update), None, store, notifier, draws);
    var link := notifier.sent[|notifier.sent| - 1].text;
    var path := link[|SuccessPrefix| + |origin|..];
    assert path == "/" + code;
    followed := Fetch(parse, BotRequest("GET", origin, path, Unreadable), None, store, notifier, draws);
  }
}
