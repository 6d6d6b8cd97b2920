/**
 * The feed fetch client (internal/rss/rss.go): the parsed feed, its in-place
 * normalisation `clean_feed`, and the step-by-step control flow of `FetchFeed`.
 *
 * HTTP, body reading, XML decoding and `html.UnescapeString` are foreign; they are the
 * fields of `Net`, functions about which nothing is assumed.
 */
module Rss {
  import opened Wrappers

  datatype RSSItem = RSSItem(title: string, link: string, description: string, pubDate: string)

  /** The value of an `RSSFeed`: its channel's fields and items. */
  datatype Channel = Channel(title: string, link: string, description: string, items: seq<RSSItem>)

  /** The zero `RSSFeed{}` that every error path returns. */
  const EmptyChannel := Channel("", "", "", [])

  type Bytes = seq<bv8>

  /** A response from the client: its status code and its body, `None` when reading the body fails. */
  datatype Response = Response(statusCode: int, body: Option<Bytes>)

  /** The foreign calls `FetchFeed` makes, as uninterpreted functions of their inputs. */
  datatype Net = Net(
    newRequest: string -> bool,           // http.NewRequestWithContext(GET, url) succeeds
    send: string -> Option<Response>,     // http.DefaultClient.Do; None is a transport error
    unmarshal: Bytes -> Option<Channel>,  // xml.Unmarshal into an RSSFeed
    unescape: string -> string)           // html.UnescapeString

  datatype FetchError = RequestError | TransportError | StatusError(code: int) | ReadError | XmlError

  /**
   * `after` is `before` normalised: channel and item titles and descriptions unescaped
   * once, links and publication dates untouched, the same items in the same order.
   */
  ghost predicate IsCleanOf(after: Channel, before: Channel, unescape: string -> string) {
    && after.title == unescape(before.title)
    && after.description == unescape(before.description)
    && after.link == before.link
    && |after.items| == |before.items|
    && forall i :: 0 <= i < |before.items| ==>
         && after.items[i].title == unescape(before.items[i].title)
         && after.items[i].description == unescape(before.items[i].description)
         && after.items[i].link == before.items[i].link
         && after.items[i].pubDate == before.items[i].pubDate
  }

  function CleanItem(v: RSSItem, unescape: string -> string): RSSItem {
    v.(title := unescape(v.title), description := unescape(v.description))
  }

  /** The normalised value of a channel, as a value. */
  function Cleaned(c: Channel, unescape: string -> string): (r: Channel)
    ensures IsCleanOf(r, c, unescape)
  {
    Channel(unescape(c.title), c.link, unescape(c.description),
            seq(|c.items|, i requires 0 <= i < |c.items| => CleanItem(c.items[i], unescape)))
  }

  /** Normalisation is a function of its input: there is only one clean form. */
  lemma CleanIsUnique(a: Channel, b: Channel, c: Channel, unescape: string -> string)
    requires IsCleanOf(a, c, unescape) && IsCleanOf(b, c, unescape)
    ensures a == b
  {
    assert |a.items| == |b.items|;
    forall i | 0 <= i < |a.items| ensures a.items[i] == b.items[i] {
      assert a.items[i].title == b.items[i].title;
    }
    assert a.items == b.items;
  }

  /** The response pipeline up to the parsed value, before normalisation. */
  function Parse(net: Net, url: string): (r: Result<Channel, FetchError>)
    ensures r.Success? ==>
      && net.newRequest(url) && net.send(url).Some?
      && net.send(url).value.statusCode <= 299
      && net.send(url).value.body.Some?
      && net.unmarshal(net.send(url).value.body.value) == Some(r.value)
  {
    if !net.newRequest(url) then Failure(RequestError)
    else match net.send(url)
      case None => Failure(TransportError)
      case Some(resp) =>
        if resp.statusCode > 299 then Failure(StatusError(resp.statusCode))
        else match resp.body
          case None => Failure(ReadError)
          case Some(body) =>
            match net.unmarshal(body)
            case None => Failure(XmlError)
            case Some(raw) => Success(raw)
  }

  /** What `FetchFeed` hands back, as a value: the parsed feed normalised once, or the first failure. */
  function Fetch(net: Net, url: string): (r: Result<Channel, FetchError>)
    ensures r.Success? <==> Parse(net, url).Success?
    ensures r.Success? ==> IsCleanOf(r.value, Parse(net, url).value, net.unescape)
    ensures r.Failure? ==> r == Parse(net, url)
  {
    match Parse(net, url)
    case Success(raw) => Success(Cleaned(raw, net.unescape))
    case Failure(e) => Failure(e)
  }

  /** A status code above 299 is a failure whatever the body holds. */
  lemma {:induction false} HighStatusRejected(net: Net, url: string)
    requires net.newRequest(url) && net.send(url).Some? && net.send(url).value.statusCode > 299
    ensures Fetch(net, url) == Failure(StatusError(net.send(url).value.statusCode))
  {
  }

  /** The check is `> 299` only: a 1xx or any other code up to 299 with a parsable body succeeds. */
  lemma {:induction false} LowStatusAccepted(net: Net, url: string, raw: Channel)
    requires net.newRequest(url) && net.send(url).Some?
    requires net.send(url).value.statusCode <= 299 && net.send(url).value.body.Some?
    requires net.unmarshal(net.send(url).value.body.value) == Some(raw)
    ensures Fetch(net, url) == Success(Cleaned(raw, net.unescape))
  {
  }

  /** The in-memory `RSSFeed` whose fields `clean_feed` rewrites in place. */
  class RSSFeed {
    var title: string
    var link: string
    var description: string
    var items: array<RSSItem>

    ghost function Value(): Channel
      reads this, items
    {
      Channel(title, link, description, items[..])
    }

    /** A feed holding the value `c` (what xml.Unmarshal fills in, or `RSSFeed{}`). */
    constructor (c: Channel)
      ensures Value() == c && fresh(items)
    {
      title := c.title;
      link := c.link;
      description := c.description;
      items := new RSSItem[|c.items|](i requires 0 <= i < |c.items| => c.items[i]);
    }

    /** `clean_feed`: unescape channel and item titles and descriptions in place. */
    method CleanFeed(unescape: string -> string)
      modifies this, items
      ensures items == old(items)
      ensures IsCleanOf(Value(), old(Value()), unescape)
    {
      title := unescape(title);
      description := unescape(description);
      var i := 0;
      while i < items.Length
        invariant 0 <= i <= items.Length
        invariant items == old(items)
        invariant title == unescape(old(title)) && description == unescape(old(description))
        invariant link == old(link)
        invariant forall k :: 0 <= k < i ==> items[k] == CleanItem(old(items[k]), unescape)
        invariant forall k :: i <= k < items.Length ==> items[k] == old(items[k])
      {
        items[i] := items[i].(title := unescape(items[i].title));
        items[i] := items[i].(description := unescape(items[i].description));
        i := i + 1;
      }
    }
  }

  /**
   * `FetchFeed`: build the request, send it, reject a status above 299, read the body,
   * decode it and normalise it. Every failure returns a fresh empty feed with the error.
   */
  method FetchFeed(net: Net, url: string) returns (res: RSSFeed, err: Option<FetchError>)
    ensures fresh(res) && fresh(res.items)
    ensures err.Some? ==> res.Value() == EmptyChannel
    ensures match Fetch(net, url)
      case Success(c) => err == None && res.Value() == c
      case Failure(e) => err == Some(e)
  {
    if !net.newRequest(url) {
      res := new RSSFeed(EmptyChannel);
      return res, Some(RequestError);
    }
    var resp := net.send(url);
    if resp.None? {
      res := new RSSFeed(EmptyChannel);
      return res, Some(TransportError);
    } else if resp.value.statusCode > 299 {
      res := new RSSFeed(EmptyChannel);
      return res, Some(StatusError(resp.value.statusCode));
    }
    var body := resp.value.body;
    if body.None? {
      res := new RSSFeed(EmptyChannel);
      return res, Some(ReadError);
    }
    var parsed := net.unmarshal(body.value);
    if parsed.None? {
      res := new RSSFeed(EmptyChannel);
      return res, Some(XmlError);
    }
    res := new RSSFeed(parsed.value);
    res.CleanFeed(net.unescape);
    CleanIsUnique(res.Value(), Fetch(net, url).value, parsed.value, net.unescape);
    err := None;
  }
}
