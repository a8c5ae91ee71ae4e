/**
 * The `ImgurLib` client object: its credential fields, the three-legged
 * OAuth 1.0a handshake that updates them (sections 2.1 to 2.3 of RFC
 * 5849), and the endpoint methods that all funnel into one signed request.
 *
 * The transport is not modelled: each method that performs an HTTP
 * exchange takes the response as a parameter, and the ghost field `sent`
 * records every request in the order it is made, with the client (so the
 * credentials) it is signed with.
 */
module Imgur {
  import opened Wrappers
  import opened Dispatch
  import opened Endpoints

  /** `oauth.Consumer(key, secret)`: the application's credentials. */
  datatype Consumer = Consumer(key: string, secret: string)

  /** `oauth.Token(key, secret)`, with the verifier `set_verifier` adds. */
  datatype Token = Token(key: string, secret: string, verifier: Option<string>)

  /** A token field: the empty string it starts as, or a token object. */
  datatype TokenSlot = Unset | Held(token: Token)

  /** `oauth.Client(consumer, token)`: signs with the consumer and, if set, the token. */
  datatype Client = Client(consumer: Consumer, token: TokenSlot)

  /** One request handed to the transport, before signing. */
  datatype Request = Request(client: Client, url: string, verb: string, params: map<string, ParamValue>)

  /** A handshake response: its status and its body as `parse_qsl` reads it. */
  datatype TokenReply = TokenReply(status: string, fields: map<string, string>)

  /** The body names both parts of a token (otherwise the dictionary lookup raises `KeyError`). */
  predicate CarriesToken(reply: TokenReply)
  {
    "oauth_token" in reply.fields && "oauth_token_secret" in reply.fields
  }

  /** The token pair a handshake response carries, as the `oauth.Token` it becomes. */
  function ReplyToken(reply: TokenReply): Token
    requires CarriesToken(reply)
  {
    Token(reply.fields["oauth_token"], reply.fields["oauth_token_secret"], None)
  }

  const NO_PARAMS: map<string, ParamValue> := map[]

  class ImgurLib {
    const consumer: Consumer
    var client: Client
    var oauthToken: string
    var oauthTokenSecret: string
    var token: TokenSlot
    var tokenU: TokenSlot
    ghost var sent: seq<Request>

    /**
     * The client always signs with the installed access token, and the
     * installed token is the pair held in `oauthToken`/`oauthTokenSecret`
     * (both empty before any is installed).
     */
    ghost predicate Valid()
      reads this
    {
      && client == Client(consumer, token)
      && (token.Unset? ==> oauthToken == "" && oauthTokenSecret == "")
      && (token.Held? ==> token.token == Token(oauthToken, oauthTokenSecret, None))
    }

    /** `__init__`: a client for the consumer, with every token field empty. */
    constructor (key: string, secret: string)
      ensures Valid()
      ensures consumer == Consumer(key, secret) && client == Client(consumer, Unset)
      ensures oauthToken == "" && oauthTokenSecret == ""
      ensures token == Unset && tokenU == Unset
      ensures sent == []
    {
      consumer := Consumer(key, secret);
      client := Client(Consumer(key, secret), Unset);
      oauthToken := "";
      oauthTokenSecret := "";
      token := Unset;
      tokenU := Unset;
      sent := [];
    }

    /**
     * `get_auth_url`: fetches a request token (section 2.1), installs it
     * as `tokenU` whatever the status, and returns the authorization URL
     * (section 2.2) only when the status is 200.
     */
    method GetAuthUrl(reply: TokenReply) returns (url: Option<string>)
      requires Valid()
      requires CarriesToken(reply)
      modifies this`tokenU, this`sent
      ensures Valid()
      ensures sent == old(sent) + [Request(Client(consumer, token), REQUEST_TOKEN_URL, "POST", NO_PARAMS)]
      ensures tokenU == Held(ReplyToken(reply))
      ensures url == if reply.status == "200" then Some(AuthorizeUrl(reply.fields["oauth_token"])) else None
    {
      sent := sent + [Request(client, REQUEST_TOKEN_URL, "POST", NO_PARAMS)];
      var reqKey := reply.fields["oauth_token"];
      var reqSecret := reply.fields["oauth_token_secret"];
      tokenU := Held(Token(reqKey, reqSecret, None));
      var u := AuthorizeUrl(reqKey);
      if reply.status != "200" {
        return None;
      }
      url := Some(u);
    }

    /**
     * `authorize`: attaches the pin to the request token, exchanges it for
     * token credentials (section 2.3), and installs them, and a client
     * signing with them, before looking at the status: the result says
     * only whether the status was 200.
     */
    method Authorize(pin: string, reply: TokenReply) returns (ok: bool)
      requires tokenU.Held?  // `set_verifier` on the initial empty string raises
      requires CarriesToken(reply)
      modifies this`tokenU, this`oauthToken, this`oauthTokenSecret, this`token, this`client, this`sent
      ensures Valid()
      ensures tokenU == Held(old(tokenU.token).(verifier := Some(pin)))
      ensures sent == old(sent) + [Request(Client(consumer, tokenU), ACCESS_TOKEN_URL, "POST", NO_PARAMS)]
      ensures oauthToken == reply.fields["oauth_token"]
      ensures oauthTokenSecret == reply.fields["oauth_token_secret"]
      ensures token == Held(ReplyToken(reply)) && client == Client(consumer, token)
      ensures ok <==> reply.status == "200"
    {
      tokenU := Held(tokenU.token.(verifier := Some(pin)));
      var handshake := Client(consumer, tokenU);
      sent := sent + [Request(handshake, ACCESS_TOKEN_URL, "POST", NO_PARAMS)];
      oauthToken := reply.fields["oauth_token"];
      oauthTokenSecret := reply.fields["oauth_token_secret"];
      token := Held(Token(oauthToken, oauthTokenSecret, None));
      client := Client(consumer, token);
      ok := reply.status == "200";
    }

    /**
     * `authorize_with_token`: installs the given pair, then probes it with
     * `account_info`. The pair stays installed whatever the probe says;
     * the probe's 401 reads as `false`, any other raised kind propagates.
     */
    method AuthorizeWithToken(probe: Response, tok: string := "", tokSecret: string := "")
      returns (r: Outcome<bool>)
      modifies this`oauthToken, this`oauthTokenSecret, this`token, this`client, this`sent
      ensures Valid()
      ensures oauthToken == tok && oauthTokenSecret == tokSecret
      ensures token == Held(Token(tok, tokSecret, None)) && client == Client(consumer, token)
      ensures sent == old(sent) + [Request(Client(consumer, Held(Token(tok, tokSecret, None))), ACCOUNT_URL, "GET", NO_PARAMS)]
      ensures r == ProbeVerdict(Classify(probe.status, probe.body))
    {
      oauthToken := tok;
      oauthTokenSecret := tokSecret;
      token := Held(Token(oauthToken, oauthTokenSecret, None));
      client := Client(consumer, token);
      var info := AccountInfo(probe);
      r := ProbeVerdict(info);
    }

    /**
     * `_submit_request`: one request, signed with the installed token,
     * then the status table.
     */
    method SubmitRequest(url: string, verb: string, params: map<string, ParamValue>, resp: Response)
      returns (r: Outcome<string>)
      requires Valid()
      modifies this`sent
      ensures sent == old(sent) + [Request(Client(consumer, token), url, verb, params)]
      ensures r == Classify(resp.status, resp.body)
    {
      sent := sent + [Request(client, url, verb, params)];
      r := Classify(resp.status, resp.body);
    }

    /** `account_info`. */
    method AccountInfo(resp: Response) returns (r: Outcome<string>)
      requires Valid()
      modifies this`sent
      ensures sent == old(sent) + [Request(Client(consumer, token), ACCOUNT_URL, "GET", NO_PARAMS)]
      ensures r == Classify(resp.status, resp.body)
    {
      r := SubmitRequest(ACCOUNT_URL, "GET", NO_PARAMS, resp);
    }

    /**
     * `upload_image`: a filename containing `http://` is sent as `url`,
     * anything else as the base64 of the file's contents.
     */
    method UploadImage(resp: Response, filename: string, title: string := "", caption: string := "")
      returns (r: Outcome<string>)
      requires Valid()
      modifies this`sent
      ensures var u := SelectUpload(filename);
        sent == old(sent) + [Request(Client(consumer, token), IMAGES_URL, "POST",
          map["image" := u.image, "type" := Text(u.typeup), "title" := Text(title), "caption" := Text(caption)])]
      ensures r == Classify(resp.status, resp.body)
    {
      var u := SelectUpload(filename);
      var params := map["image" := u.image, "type" := Text(u.typeup), "title" := Text(title),
                        "caption" := Text(caption)];
      r := SubmitRequest(IMAGES_URL, "POST", params, resp);
    }

    /** `get_account_images`. */
    method GetAccountImages(resp: Response) returns (r: Outcome<string>)
      requires Valid()
      modifies this`sent
      ensures sent == old(sent) + [Request(Client(consumer, token), IMAGES_URL, "GET", NO_PARAMS)]
      ensures r == Classify(resp.status, resp.body)
    {
      r := SubmitRequest(IMAGES_URL, "GET", NO_PARAMS, resp);
    }

    /** `delete_image`: a DELETE on the image's own endpoint. */
    method DeleteImage(resp: Response, imagehash: string) returns (r: Outcome<string>)
      requires Valid()
      modifies this`sent
      ensures sent == old(sent) + [Request(Client(consumer, token), ImageUrl(imagehash), "DELETE", NO_PARAMS)]
      ensures r == Classify(resp.status, resp.body)
    {
      r := SubmitRequest(ImageUrl(imagehash), "DELETE", NO_PARAMS, resp);
    }

    /** `get_image_info`: a GET on the image's own endpoint. */
    method GetImageInfo(resp: Response, imagehash: string) returns (r: Outcome<string>)
      requires Valid()
      modifies this`sent
      ensures sent == old(sent) + [Request(Client(consumer, token), ImageUrl(imagehash), "GET", NO_PARAMS)]
      ensures r == Classify(resp.status, resp.body)
    {
      r := SubmitRequest(ImageUrl(imagehash), "GET", NO_PARAMS, resp);
    }

    /** `get_image_count`. */
    method GetImageCount(resp: Response) returns (r: Outcome<string>)
      requires Valid()
      modifies this`sent
      ensures sent == old(sent) + [Request(Client(consumer, token), IMAGE_COUNT_URL, "GET", NO_PARAMS)]
      ensures r == Classify(resp.status, resp.body)
    {
      r := SubmitRequest(IMAGE_COUNT_URL, "GET", NO_PARAMS, resp);
    }

    /** `get_albums`: 30 albums from page 1 unless told otherwise. */
    method GetAlbums(resp: Response, count: int := 30, page: int := 1) returns (r: Outcome<string>)
      requires Valid()
      modifies this`sent
      ensures sent == old(sent) + [Request(Client(consumer, token), ALBUMS_URL, "GET",
        map["count" := Number(count), "page" := Number(page)])]
      ensures r == Classify(resp.status, resp.body)
    {
      r := SubmitRequest(ALBUMS_URL, "GET", map["count" := Number(count), "page" := Number(page)], resp);
    }

    /** `create_album`: public unless told otherwise; the service judges the privacy value. */
    method CreateAlbum(resp: Response, title: string := "", description: string := "",
                       privacy: string := "public")
      returns (r: Outcome<string>)
      requires Valid()
      modifies this`sent
      ensures sent == old(sent) + [Request(Client(consumer, token), ALBUMS_URL, "POST",
        map["title" := Text(title), "description" := Text(description), "privacy" := Text(privacy)])]
      ensures r == Classify(resp.status, resp.body)
    {
      var params := map["title" := Text(title), "description" := Text(description),
                        "privacy" := Text(privacy)];
      r := SubmitRequest(ALBUMS_URL, "POST", params, resp);
    }

    /** `get_album_count`. */
    method GetAlbumCount(resp: Response) returns (r: Outcome<string>)
      requires Valid()
      modifies this`sent
      ensures sent == old(sent) + [Request(Client(consumer, token), ALBUM_COUNT_URL, "GET", NO_PARAMS)]
      ensures r == Classify(resp.status, resp.body)
    {
      r := SubmitRequest(ALBUM_COUNT_URL, "GET", NO_PARAMS, resp);
    }

    /** `get_credits`. */
    method GetCredits(resp: Response) returns (r: Outcome<string>)
      requires Valid()
      modifies this`sent
      ensures sent == old(sent) + [Request(Client(consumer, token), CREDITS_URL, "GET", NO_PARAMS)]
      ensures r == Classify(resp.status, resp.body)
    {
      r := SubmitRequest(CREDITS_URL, "GET", NO_PARAMS, resp);
    }
  }

  /**
   * Authorizing twice with the same pair, where the probe succeeds both
   * times, answers `true` both times and leaves that pair installed.
   */
  method AuthorizeWithTokenTwice(lib: ImgurLib, tok: string, tokSecret: string, probe1: Response, probe2: Response)
    returns (r1: Outcome<bool>, r2: Outcome<bool>)
    requires Classify(probe1.status, probe1.body).Ok? && Classify(probe2.status, probe2.body).Ok?
    modifies lib
    ensures r1 == Ok(true) && r2 == Ok(true)
    ensures lib.oauthToken == tok && lib.oauthTokenSecret == tokSecret
    ensures lib.token == Held(Token(tok, tokSecret, None))
  {
    r1 := lib.AuthorizeWithToken(probe1, tok, tokSecret);
    r2 := lib.AuthorizeWithToken(probe2, tok, tokSecret);
  }

  /**
   * The whole three-legged flow on a fresh client: the authorization URL
   * on a 200 carries the request token; the request-token POST is signed
   * with the consumer alone and the access-token POST with the request
   * token carrying the pin; the token credentials are installed, and the
   * result reports the second status.
   */
  method ThreeLeggedFlow(key: string, secret: string, tempReply: TokenReply, pin: string, tokenReply: TokenReply)
    returns (url: Option<string>, ok: bool, access: Token, verified: Token, ghost requests: seq<Request>)
    requires CarriesToken(tempReply) && CarriesToken(tokenReply)
    ensures tempReply.status == "200" <==> url.Some?
    ensures url.Some? ==> TokenOfAuthorizeUrl(url.value) == Some(tempReply.fields["oauth_token"])
    ensures verified == ReplyToken(tempReply).(verifier := Some(pin))
    ensures ok <==> tokenReply.status == "200"
    ensures access == ReplyToken(tokenReply)
    ensures requests == [
      Request(Client(Consumer(key, secret), Unset), REQUEST_TOKEN_URL, "POST", NO_PARAMS),
      Request(Client(Consumer(key, secret), Held(verified)), ACCESS_TOKEN_URL, "POST", NO_PARAMS)]
  {
    var lib := new ImgurLib(key, secret);
    url := lib.GetAuthUrl(tempReply);
    AuthorizeUrlRoundTrip(tempReply.fields["oauth_token"]);
    ok := lib.Authorize(pin, tokenReply);
    access := lib.token.token;
    verified := lib.tokenU.token;
    requests := lib.sent;
  }
}
