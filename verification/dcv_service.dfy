/**
 * NICE DCV helpers: the password-free login URL and the command that asks the DCV
 * server for an authentication token.
 *
 * The URL has the shape `https://{ip}:{port}/?authToken={token}#{sessionId}`: the token
 * travels in the query component and the session in the fragment component (sections
 * 3.4 and 3.5 of RFC 3986).
 */
module DcvService {
  import opened Values
  import opened JavaText

  const URL_SCHEME: string := "https://"
  const DEFAULT_SESSION: string := "console"
  const DEFAULT_USER: string := "ec2-user"

  /**
   * `generatePresignedUrl(serverIp, serverPort, sessionId, authToken)`:
   * `String.format("https://%s:%d/?authToken=%s#%s", …)`, where a null string is
   * written as "null" and the port in decimal.
   */
  function PresignedUrl(serverIp: Option<string>, serverPort: int32, sessionId: Option<string>,
                        authToken: Option<string>): (r: string)
    ensures StartsWith(r, URL_SCHEME + NullText(serverIp) + ":" + IntToString(serverPort as int) + "/?authToken=")
    ensures EndsWith(r, "#" + NullText(sessionId))
  {
    var head := URL_SCHEME + NullText(serverIp) + ":" + IntToString(serverPort as int) + "/?authToken=";
    var tail := "#" + NullText(sessionId);
    var r := head + NullText(authToken) + tail;
    assert r[..|head|] == head;
    assert r[|r| - |tail|..] == tail;
    r
  }

  /** The parts a DCV login URL is read back into. */
  datatype DcvUrl = DcvUrl(host: string, port: Option<int>, query: string, fragment: string)

  /**
   * Reads a URL of the shape `https://{host}:{port}/?{query}#{fragment}`: the host ends
   * at the first ':', the port at the next '/', the path must be empty, the query ends
   * at the first '#' and the fragment is the rest.
   */
  function ParseDcvUrl(url: string): Option<DcvUrl> {
    if !StartsWith(url, URL_SCHEME) then None
    else
      match SplitAtFirst(url[|URL_SCHEME|..], ':')
      case None => None
      case Some((host, afterHost)) =>
        match SplitAtFirst(afterHost, '/')
        case None => None
        case Some((portText, afterPort)) =>
          match SplitAtFirst(afterPort, '?')
          case None => None
          case Some((path, afterPath)) =>
            if path != "" then None
            else
              match SplitAtFirst(afterPath, '#')
              case None => None
              case Some((query, fragment)) => Some(DcvUrl(host, ParseInt(portText), query, fragment))
  }

  lemma QueryKeyHasNoHash()
    ensures '#' !in "authToken="
  {
  }

  /** The login URL with each separator the parser looks for made explicit. */
  lemma PresignedUrlShape(serverIp: string, serverPort: int32, sessionId: string, authToken: string)
    ensures PresignedUrl(Some(serverIp), serverPort, Some(sessionId), Some(authToken))
         == URL_SCHEME + (serverIp + [':'] + (IntToString(serverPort as int) + ['/']
              + ([] + ['?'] + (("authToken=" + authToken) + ['#'] + sessionId))))
  {
    var port := IntToString(serverPort as int);
    var head := URL_SCHEME + serverIp + ":" + port;
    var fragment := "#" + sessionId;
    var afterPort := [] + ['?'] + (("authToken=" + authToken) + ['#'] + sessionId);
    var afterHost := port + ['/'] + afterPort;
    assert "/?authToken=" + (authToken + fragment) == ['/'] + afterPort by {
      ConcatAssoc("authToken=" + authToken, "#", sessionId);
      ConcatAssoc("authToken=", authToken, fragment);
      ConcatAssoc(['/'], ['?'], "authToken=" + (authToken + fragment));
      ConcatAssoc("/?", "authToken=", authToken + fragment);
    }
    calc {
      PresignedUrl(Some(serverIp), serverPort, Some(sessionId), Some(authToken));
      head + "/?authToken=" + authToken + "#" + sessionId;
      { ConcatAssoc(head + "/?authToken=" + authToken, "#", sessionId); }
      head + "/?authToken=" + authToken + fragment;
      { ConcatAssoc(head + "/?authToken=", authToken, fragment); }
      head + "/?authToken=" + (authToken + fragment);
      { ConcatAssoc(head, "/?authToken=", authToken + fragment); }
      head + (['/'] + afterPort);
      { ConcatAssoc(head, ['/'], afterPort); ConcatAssoc(URL_SCHEME + serverIp + ":", port, ['/']); }
      URL_SCHEME + serverIp + ":" + (port + ['/']) + afterPort;
      { ConcatAssoc(URL_SCHEME + serverIp + ":", port + ['/'], afterPort); }
      URL_SCHEME + serverIp + ":" + afterHost;
      { ConcatAssoc(URL_SCHEME + serverIp, ":", afterHost); ConcatAssoc(URL_SCHEME, serverIp, ":" + afterHost); }
      URL_SCHEME + (serverIp + (":" + afterHost));
      { ConcatAssoc(serverIp, ":", afterHost); }
      URL_SCHEME + (serverIp + [':'] + afterHost);
    }
  }

  /** The parser takes apart a URL assembled from parts that do not contain its separators. */
  lemma ParseDcvUrlOf(host: string, portText: string, query: string, fragment: string)
    requires ':' !in host && '/' !in portText && '#' !in query
    ensures ParseDcvUrl(URL_SCHEME + (host + [':'] + (portText + ['/'] + ([] + ['?'] + (query + ['#'] + fragment)))))
         == Some(DcvUrl(host, ParseInt(portText), query, fragment))
  {
    var afterPath := query + ['#'] + fragment;
    var afterPort := [] + ['?'] + afterPath;
    var afterHost := portText + ['/'] + afterPort;
    var rest := host + [':'] + afterHost;
    assert (URL_SCHEME + rest)[|URL_SCHEME|..] == rest;
    SplitAtFirstOf(host, ':', afterHost);
    SplitAtFirstOf(portText, '/', afterPort);
    SplitAtFirstOf([], '?', afterPath);
    SplitAtFirstOf(query, '#', fragment);
  }

  /**
   * A login URL reads back as its host and port, the query `authToken={token}` and the
   * session as fragment, for a host without ':' (an IPv4 address or a DNS name) and a
   * token without '#'.
   */
  lemma PresignedUrlParts(serverIp: string, serverPort: int32, sessionId: string, authToken: string)
    requires ':' !in serverIp && '#' !in authToken
    ensures ParseDcvUrl(PresignedUrl(Some(serverIp), serverPort, Some(sessionId), Some(authToken)))
         == Some(DcvUrl(serverIp, Some(serverPort as int), "authToken=" + authToken, sessionId))
  {
    PresignedUrlShape(serverIp, serverPort, sessionId, authToken);
    IntToStringChars(serverPort as int, '/');
    QueryKeyHasNoHash();
    ParseDcvUrlOf(serverIp, IntToString(serverPort as int), "authToken=" + authToken, sessionId);
    ParseIntToString(serverPort as int);
  }

  /**
   * `generatePresignedUrl(serverIp, sessionId, authToken)`: the four-argument form with
   * the DCV port of the configuration.
   */
  function PresignedUrlWithConfiguredPort(dcvPort: int32, serverIp: Option<string>, sessionId: Option<string>,
                                          authToken: Option<string>): string
  {
    PresignedUrl(serverIp, dcvPort, sessionId, authToken)
  }

  /** The URL built without an explicit port carries the configured DCV port. */
  lemma ConfiguredPortUrlParts(dcvPort: int32, serverIp: string, sessionId: string, authToken: string)
    requires ':' !in serverIp && '#' !in authToken
    ensures var url := ParseDcvUrl(PresignedUrlWithConfiguredPort(dcvPort, Some(serverIp), Some(sessionId), Some(authToken)));
            url.Some? && url.value.port == Some(dcvPort as int)
  {
    PresignedUrlParts(serverIp, dcvPort, sessionId, authToken);
  }

  /** The session used for the token: the given one unless it is null or empty, then "console". */
  function EffectiveSession(sessionId: Option<string>): (r: string)
    ensures IsPresent(sessionId) ==> r == sessionId.value
    ensures !IsPresent(sessionId) ==> r == DEFAULT_SESSION
    ensures r != ""
  {
    if IsPresent(sessionId) then sessionId.value else DEFAULT_SESSION
  }

  /** The user used for the token: the given one unless it is null or empty, then "ec2-user". */
  function EffectiveUser(user: Option<string>): (r: string)
    ensures IsPresent(user) ==> r == user.value
    ensures !IsPresent(user) ==> r == DEFAULT_USER
    ensures r != ""
  {
    if IsPresent(user) then user.value else DEFAULT_USER
  }

  /** `getTokenGenerationCommands`: a list holding the one `dcv generate-auth-token` command. */
  function TokenGenerationCommands(sessionId: Option<string>, user: Option<string>): (r: seq<string>)
    ensures |r| == 1
    ensures StartsWith(r[0], "dcv generate-auth-token --session ")
  {
    var prefix := "dcv generate-auth-token --session ";
    var command := prefix + EffectiveSession(sessionId) + " --user " + EffectiveUser(user);
    assert command[..|prefix|] == prefix;
    [command]
  }

  lemma CommandWordsHaveNoSpace()
    ensures ' ' !in "dcv" && ' ' !in "generate-auth-token" && ' ' !in "--session" && ' ' !in "--user"
  {
  }

  lemma CommandTextIsWords()
    ensures "dcv generate-auth-token --session " == "dcv" + " " + "generate-auth-token" + " " + "--session" + " "
    ensures " --user " == " " + "--user" + " "
  {
  }

  /** The command is its six words joined by single spaces. */
  lemma TokenCommandIsJoin(sessionId: Option<string>, user: Option<string>)
    ensures TokenGenerationCommands(sessionId, user)[0]
         == Join(["dcv", "generate-auth-token", "--session", EffectiveSession(sessionId), "--user", EffectiveUser(user)], " ")
  {
    JoinSixWords("dcv", "generate-auth-token", "--session", EffectiveSession(sessionId), "--user", EffectiveUser(user));
    CommandTextIsWords();
  }

  lemma JoinSixWords(a: string, b: string, c: string, d: string, e: string, f: string)
    ensures Join([a, b, c, d, e, f], " ") == a + " " + b + " " + c + " " + d + " " + e + " " + f
  {
    var words := [a, b, c, d, e, f];
    assert Join(words[4..], " ") == e + " " + f;
    assert Join(words[3..], " ") == d + " " + e + " " + f;
    assert Join(words[2..], " ") == c + " " + d + " " + e + " " + f;
    assert Join(words[1..], " ") == b + " " + c + " " + d + " " + e + " " + f;
  }

  /**
   * For a session and user without spaces, the command splits on spaces into exactly
   * the six words `dcv generate-auth-token --session {session} --user {user}`.
   */
  lemma TokenCommandWords(sessionId: Option<string>, user: Option<string>)
    requires ' ' !in EffectiveSession(sessionId) && ' ' !in EffectiveUser(user)
    ensures JavaSplit(TokenGenerationCommands(sessionId, user)[0], ' ')
         == ["dcv", "generate-auth-token", "--session", EffectiveSession(sessionId), "--user", EffectiveUser(user)]
  {
    var words := ["dcv", "generate-auth-token", "--session", EffectiveSession(sessionId), "--user", EffectiveUser(user)];
    var command := TokenGenerationCommands(sessionId, user)[0];
    TokenCommandIsJoin(sessionId, user);
    CommandWordsHaveNoSpace();
    SplitAllJoin(words, ' ');
    assert command[3] == ' ';
    assert DropTrailingEmpty(words) == words;
  }
}
