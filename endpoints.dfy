/**
 * The strings the library derives from its inputs: the fixed endpoint
 * URLs, the authorization URL handed to the user, the per-image endpoint,
 * the upload type discriminator and the forum/HTML links.
 */
module Endpoints {
  import opened Wrappers
  import opened PyText

  const REQUEST_TOKEN_URL: string := "https://api.imgur.com/oauth/request_token"
  const AUTHORIZE_URL: string := "http://api.imgur.com/oauth/authorize"
  const ACCESS_TOKEN_URL: string := "https://api.imgur.com/oauth/access_token"

  const ACCOUNT_URL: string := "http://api.imgur.com/2/account.json"
  const IMAGES_URL: string := "http://api.imgur.com/2/account/images.json"
  const IMAGE_COUNT_URL: string := "http://api.imgur.com/2/account/images_count.json"
  const ALBUMS_URL: string := "http://api.imgur.com/2/account/albums.json"
  const ALBUM_COUNT_URL: string := "http://api.imgur.com/2/account/albums_count.json"
  const CREDITS_URL: string := "http://api.imgur.com/2/credits.json"

  /** The literal text around the `%s` directives of the library's templates. */
  const AUTH_QUERY: string := "?oauth_token="
  const IMAGE_PREFIX: string := "http://api.imgur.com/2/account/images/"
  const IMAGE_SUFFIX: string := ".json"
  const FORUM_OPEN: string := "[url="
  const FORUM_MIDDLE: string := "][img]"
  const FORUM_CLOSE: string := "[/img][/url]"
  const HTML_OPEN: string := "<a href=\""
  const HTML_MIDDLE: string := "\" target=\"_blank\"><img src=\""
  const HTML_CLOSE: string := "\" /></a>"

  /**
   * The `%` templates, spelled piece by piece: they read
   * `?oauth_token=%s`, `http://api.imgur.com/2/account/images/%s.json`,
   * `[url=%s][img]%s[/img][/url]` and
   * `<a href="%s" target="_blank"><img src="%s" /></a>`.
   */
  const AUTH_QUERY_TEMPLATE: string := AUTH_QUERY + "%s"
  const IMAGE_TEMPLATE: string := IMAGE_PREFIX + "%s" + IMAGE_SUFFIX
  const FORUM_TEMPLATE: string := FORUM_OPEN + "%s" + FORUM_MIDDLE + "%s" + FORUM_CLOSE
  const HTML_TEMPLATE: string := HTML_OPEN + "%s" + HTML_MIDDLE + "%s" + HTML_CLOSE

  /** None of the literal pieces holds a `%`, so each is copied verbatim. */
  lemma UrlPiecesHaveNoDirective()
    ensures '%' !in AUTH_QUERY && '%' !in IMAGE_PREFIX && '%' !in IMAGE_SUFFIX
  {
  }

  lemma ForumPiecesHaveNoDirective()
    ensures '%' !in FORUM_OPEN && '%' !in FORUM_MIDDLE && '%' !in FORUM_CLOSE
  {
  }

  lemma HtmlPiecesHaveNoDirective()
    ensures '%' !in HTML_OPEN && '%' !in HTML_MIDDLE && '%' !in HTML_CLOSE
  {
  }

  /**
   * The URL `get_auth_url` hands to the user: the authorize endpoint
   * with the request token as its `oauth_token` query parameter (`%`
   * binds tighter than `+`, so only the query is a template).
   */
  function AuthorizeUrl(token: string): (url: string)
    ensures url == AUTHORIZE_URL + "?oauth_token=" + token
  {
    UrlPiecesHaveNoDirective();
    assert AUTH_QUERY_TEMPLATE == AUTH_QUERY + "%s" + "";
    FormatOne(AUTH_QUERY, "", token);
    assert AUTH_QUERY + token + "" == AUTH_QUERY + token;
    AUTHORIZE_URL + Format(AUTH_QUERY_TEMPLATE, [token]).value
  }

  /** Reads the token back out of an authorization URL. */
  function TokenOfAuthorizeUrl(url: string): Option<string>
  {
    var prefix := AUTHORIZE_URL + AUTH_QUERY;
    if prefix <= url then Some(url[|prefix|..]) else None
  }

  /**
   * The authorization URL carries the request token, and carries it so
   * that it can be read back: distinct tokens give distinct URLs.
   */
  lemma AuthorizeUrlRoundTrip(token: string)
    ensures TokenOfAuthorizeUrl(AuthorizeUrl(token)) == Some(token)
    ensures Contains(AuthorizeUrl(token), token)
  {
    var prefix := AUTHORIZE_URL + AUTH_QUERY;
    assert AuthorizeUrl(token) == prefix + token + "";
    OccursBetween(prefix, token, "");
  }

  /** The endpoint of one image, used by `delete_image` and `get_image_info`. */
  function ImageUrl(imagehash: string): (url: string)
    ensures url == "http://api.imgur.com/2/account/images/" + imagehash + ".json"
  {
    UrlPiecesHaveNoDirective();
    FormatOne(IMAGE_PREFIX, IMAGE_SUFFIX, imagehash);
    Format(IMAGE_TEMPLATE, [imagehash]).value
  }

  /** Reads the image hash back out of a per-image endpoint. */
  function HashOfImageUrl(url: string): Option<string>
  {
    if |url| >= |IMAGE_PREFIX| + |IMAGE_SUFFIX| && IMAGE_PREFIX <= url
       && url[|url| - |IMAGE_SUFFIX|..] == IMAGE_SUFFIX
    then Some(url[|IMAGE_PREFIX|..|url| - |IMAGE_SUFFIX|])
    else None
  }

  /** Distinct hashes address distinct images: the hash can be read back. */
  lemma ImageUrlRoundTrip(imagehash: string)
    ensures HashOfImageUrl(ImageUrl(imagehash)) == Some(imagehash)
  {
  }

  /** A request parameter before `urllib.urlencode` turns it into text. */
  datatype ParamValue =
    | Text(s: string)
    | Number(n: int)
    | Base64Of(path: string)  // the base64 encoding of the named file's contents

  /** What `upload_image` sends as `type` and as `image`. */
  datatype Upload = Upload(typeup: string, image: ParamValue)

  /**
   * The upload discriminator: a filename containing `http://` is sent as
   * a URL, anything else is read from disk and sent base64-encoded.
   */
  function SelectUpload(filename: string): (u: Upload)
    ensures u.typeup == "url" <==> Contains(filename, "http://")
    ensures u.typeup == "url" || u.typeup == "base64"
    ensures u.image == if u.typeup == "url" then Text(filename) else Base64Of(filename)
  {
    if Contains(filename, "http://") then Upload("url", Text(filename))
    else Upload("base64", Base64Of(filename))
  }

  /** `http://` anywhere in the filename, not only at its start, makes a URL upload. */
  lemma HttpAnywhereIsUrl(before: string, after: string)
    ensures SelectUpload(before + "http://" + after) == Upload("url", Text(before + "http://" + after))
  {
    OccursBetween(before, "http://", after);
  }

  /** No `http://` starts within `https://`, so none is gained by prefixing it. */
  lemma HttpsAddsNoHttp(rest: string)
    requires !Contains(rest, "http://")
    ensures !Contains("https://" + rest, "http://")
  {
    var f, p := "https://" + rest, "http://";
    assert f[0] == 'h' && f[1] == 't' && f[2] == 't' && f[3] == 'p' && f[4] == 's';
    assert f[5] == ':' && f[6] == '/' && f[7] == '/';
    forall i | 8 <= i ensures !OccursAt(f, p, i) {
      if i + 7 <= |f| {
        assert f[i..i + 7] == rest[i - 8..i - 1];
        assert !OccursAt(rest, p, i - 8);
      }
    }
  }

  /**
   * The test is for `http://` only: an `https://` address with no further
   * `http://` in it is taken for a local path and read from disk.
   */
  lemma HttpsIsFile(rest: string)
    requires !Contains(rest, "http://")
    ensures SelectUpload("https://" + rest) == Upload("base64", Base64Of("https://" + rest))
  {
    HttpsAddsNoHttp(rest);
  }

  /** The part of the image-info payload `generate_links` reads. */
  datatype ImageInfo = ImageInfo(success: bool, original: string, smallSquare: string)

  /** The `forums` and `html` entries of the dictionary `generate_links` returns. */
  datatype Links = Links(forums: string, html: string)

  /**
   * `generate_links`: on a successful info fetch, a forum tag and an HTML
   * anchor, each linking the original to its small-square thumbnail; on
   * an unsuccessful one, `None`.
   */
  function GenerateLinks(info: ImageInfo): (r: Option<Links>)
    ensures r.Some? <==> info.success
    ensures r.Some? ==>
      r.value.forums == "[url=" + info.original + "][img]" + info.smallSquare + "[/img][/url]"
    ensures r.Some? ==>
      r.value.html == "<a href=\"" + info.original + "\" target=\"_blank\"><img src=\""
                      + info.smallSquare + "\" /></a>"
  {
    if info.success then
      ForumPiecesHaveNoDirective();
      HtmlPiecesHaveNoDirective();
      FormatTwo(FORUM_OPEN, FORUM_MIDDLE, FORUM_CLOSE, info.original, info.smallSquare);
      FormatTwo(HTML_OPEN, HTML_MIDDLE, HTML_CLOSE, info.original, info.smallSquare);
      Some(Links(Format(FORUM_TEMPLATE, [info.original, info.smallSquare]).value,
                 Format(HTML_TEMPLATE, [info.original, info.smallSquare]).value))
    else
      None
  }

  /** Text surrounded by two literal pieces is contained in the result. */
  lemma EmbedsBoth(open: string, a: string, middle: string, b: string, close: string)
    ensures Contains(open + a + middle + b + close, a)
    ensures Contains(open + a + middle + b + close, b)
  {
    assert open + a + middle + b + close == open + a + (middle + b + close);
    OccursBetween(open, a, middle + b + close);
    OccursBetween(open + a + middle, b, close);
  }

  /** Both links embed both the original and the thumbnail URL. */
  lemma LinksEmbedBothUrls(info: ImageInfo)
    requires info.success
    ensures var l := GenerateLinks(info).value;
      Contains(l.forums, info.original) && Contains(l.forums, info.smallSquare)
      && Contains(l.html, info.original) && Contains(l.html, info.smallSquare)
  {
    EmbedsBoth("[url=", info.original, "][img]", info.smallSquare, "[/img][/url]");
    EmbedsBoth("<a href=\"", info.original, "\" target=\"_blank\"><img src=\"", info.smallSquare,
               "\" /></a>");
  }
}
