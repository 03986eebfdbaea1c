/** The Flask SAML 2.0 service provider: the request dictionary handed to
    the SAML library, and the session the assertion consumer service fills
    and logout clears. The SAML library's verdicts (errors, authentication,
    the asserted name id and attributes) are inputs. */
module SamlSp {
  import opened Base
  import opened Text

  // ---------------------------------------------------------------------
  // Request shaping
  // ---------------------------------------------------------------------

  const SchemeSeparator := "://"
  const DefaultServerPort := "5000"

  /** What the service provider reads from the incoming Flask request. */
  datatype FlaskRequest = FlaskRequest(
    url: string,
    path: string,
    serverPort: Option<string>,
    args: map<string, string>,
    form: map<string, string>,
    queryString: string)

  /** The dictionary the SAML library is initialised with. */
  datatype SamlRequest = SamlRequest(
    https: string,
    httpHost: string,
    scriptName: string,
    serverPort: string,
    getData: map<string, string>,
    postData: map<string, string>,
    queryString: string)

  /** `prepare_flask_request`; none for a URL without "://", where the
      source fails on `url_data[1]`. */
  function PrepareRequest(req: FlaskRequest): (r: Option<SamlRequest>)
    ensures r.None? <==> IndexOf(req.url, SchemeSeparator).None?
    ensures r.Some? ==> r.value.https in {"on", "off"}
    ensures r.Some? ==> '/' !in r.value.httpHost
    ensures r.Some? ==> r.value.serverPort == req.serverPort.GetOr(DefaultServerPort)
    ensures r.Some? ==> r.value.scriptName == req.path && r.value.getData == req.args &&
                        r.value.postData == req.form && r.value.queryString == req.queryString
  {
    var urlData := SplitOnce(req.url, SchemeSeparator);
    if |urlData| < 2 then None
    else
      var scheme := urlData[0];
      var host := SplitOnce(urlData[1], "/")[0];
      NoSlashInHost(urlData[1]);
      Some(SamlRequest(
        if scheme == "https" then "on" else "off",
        host,
        req.path,
        req.serverPort.GetOr(DefaultServerPort),
        req.args,
        req.form,
        req.queryString))
  }

  /** The text before the first "/" has no "/" in it. */
  lemma NoSlashInHost(rest: string)
    ensures '/' !in SplitOnce(rest, "/")[0]
  {
    var host := SplitOnce(rest, "/")[0];
    SplitOnceHead(rest, "/");
    forall i | 0 <= i < |host|
      ensures host[i] != '/'
    {
      if host[i] == '/' {
        assert host[i..i + 1] == "/";
        assert OccursAt(host, "/", i);
      }
    }
  }

  /** For a URL built from a scheme, a host and a path, the library is told
      https exactly for the "https" scheme and gets the host back. */
  lemma PrepareRoundTrip(scheme: string, host: string, path: string, req: FlaskRequest)
    requires ':' !in scheme && '/' !in host
    requires req.url == scheme + SchemeSeparator + host + "/" + path
    ensures PrepareRequest(req).Some?
    ensures PrepareRequest(req).value.https == "on" <==> scheme == "https"
    ensures PrepareRequest(req).value.httpHost == host
  {
    assert req.url == scheme + SchemeSeparator + (host + "/" + path);
    SplitOnceAt(scheme, SchemeSeparator, host + "/" + path);
    SplitOnceAt(host, "/", path);
  }

  // ---------------------------------------------------------------------
  // The session
  // ---------------------------------------------------------------------

  const UserdataKey := "samlUserdata"
  const NameIdKey := "samlNameId"
  const NameIdFormatKey := "samlNameIdFormat"
  const NameQualifierKey := "samlNameIdNameQualifier"
  const SpNameQualifierKey := "samlNameIdSPNameQualifier"
  const SessionIndexKey := "samlSessionIndex"

  /** The six keys the assertion consumer service writes. */
  const SessionKeys := [UserdataKey, NameIdKey, NameIdFormatKey, NameQualifierKey, SpNameQualifierKey, SessionIndexKey]

  type Session = map<string, Value>

  /** What the SAML library reports after processing a response. */
  datatype AcsVerdict = AcsVerdict(
    errors: seq<string>,
    authenticated: bool,
    attributes: Value,
    nameId: Value,
    nameIdFormat: Value,
    nameQualifier: Value,
    spNameQualifier: Value,
    sessionIndex: Value)

  /** The session after a successful login. */
  function StoreAssertion(s: Session, v: AcsVerdict): (r: Session)
    ensures forall k :: k in SessionKeys ==> k in r
    ensures forall k :: k in s && k !in SessionKeys ==> k in r && r[k] == s[k]
    ensures r.Keys == s.Keys + set k | k in SessionKeys
    ensures r[UserdataKey] == v.attributes && r[NameIdKey] == v.nameId && r[NameIdFormatKey] == v.nameIdFormat
    ensures r[NameQualifierKey] == v.nameQualifier && r[SpNameQualifierKey] == v.spNameQualifier
    ensures r[SessionIndexKey] == v.sessionIndex
  {
    s[UserdataKey := v.attributes][NameIdKey := v.nameId][NameIdFormatKey := v.nameIdFormat]
     [NameQualifierKey := v.nameQualifier][SpNameQualifierKey := v.spNameQualifier]
     [SessionIndexKey := v.sessionIndex]
  }

  datatype Reply =
    | ErrorPage(status: int, errors: seq<string>)
    | Redirect(location: string)
    | LoginPage
    | Dashboard(nameId: Value, attributes: Value)
    | AttributesPage(nameId: Value, attributes: Value)

  const IndexUrl := "/"

  /** `index`: the dashboard exactly when a login is in the session. */
  function IndexPage(s: Session): (r: Reply)
    ensures r.Dashboard? <==> UserdataKey in s
    ensures r.Dashboard? ==> r.attributes == s[UserdataKey]
    ensures !r.Dashboard? ==> r == LoginPage
  {
    if UserdataKey in s then Dashboard(GetOr(s, NameIdKey, Str("Unknown")), s[UserdataKey])
    else LoginPage
  }

  /** `attributes`: back to the index without a login. */
  function AttributesView(s: Session): (r: Reply)
    ensures r == Redirect(IndexUrl) <==> UserdataKey !in s
    ensures r.AttributesPage? <==> UserdataKey in s
  {
    if UserdataKey !in s then Redirect(IndexUrl)
    else AttributesPage(GetOr(s, NameIdKey, Str("Unknown")), s[UserdataKey])
  }

  /** `session.get(key, default)`. */
  function GetOr(s: Session, key: string, default: Value): Value {
    if key in s then s[key] else default
  }

  /** The values `logout` hands to the library's logout request. */
  datatype LogoutRequest = LogoutRequest(nameId: Value, sessionIndex: Value, nameQualifier: Value, nameIdFormat: Value, spNameQualifier: Value)

  /** What the library reports after processing a logout request or response:
      whether it ran the session-clearing callback, its errors, and the URL
      to go to next. */
  datatype SloVerdict = SloVerdict(clearedSession: bool, errors: seq<string>, url: Option<string>)

  class SpSession {
    var data: Session

    constructor()
      ensures data == map[]
    {
      data := map[];
    }

    /** `saml_acs`: errors give 400 and an unauthenticated response 401,
        both leaving the session alone; otherwise the six keys are stored
        and the user is sent on to the relay state, when it is not this
        page, or to the index. The relay state goes through the library's
        `redirect_to`, given here as `redirectTo`. */
    method Acs(v: AcsVerdict, relayState: Option<string>, selfUrl: string, redirectTo: string -> string) returns (r: Reply)
      modifies this
      ensures v.errors != [] ==> r == ErrorPage(400, v.errors) && data == old(data)
      ensures v.errors == [] && !v.authenticated ==> r == ErrorPage(401, ["Not authenticated"]) && data == old(data)
      ensures v.errors == [] && v.authenticated ==> data == StoreAssertion(old(data), v)
      ensures v.errors == [] && v.authenticated ==>
        r == if relayState.Some? && relayState.value != selfUrl then Redirect(redirectTo(relayState.value)) else Redirect(IndexUrl)
    {
      if v.errors != [] {
        return ErrorPage(400, v.errors);
      }
      if !v.authenticated {
        return ErrorPage(401, ["Not authenticated"]);
      }
      data := data[UserdataKey := v.attributes];
      data := data[NameIdKey := v.nameId];
      data := data[NameIdFormatKey := v.nameIdFormat];
      data := data[NameQualifierKey := v.nameQualifier];
      data := data[SpNameQualifierKey := v.spNameQualifier];
      data := data[SessionIndexKey := v.sessionIndex];
      if relayState.Some? && relayState.value != selfUrl {
        r := Redirect(redirectTo(relayState.value));
      } else {
        r := Redirect(IndexUrl);
      }
    }

    /** `logout`: the values the logout request carries are read first,
        then the session is emptied. */
    method Logout() returns (request: LogoutRequest)
      modifies this
      ensures request == LogoutRequest(GetOr(old(data), NameIdKey, Null), GetOr(old(data), SessionIndexKey, Null),
                                       GetOr(old(data), NameQualifierKey, Null), GetOr(old(data), NameIdFormatKey, Null),
                                       GetOr(old(data), SpNameQualifierKey, Null))
      ensures data == map[]
      ensures IndexPage(data) == LoginPage && AttributesView(data) == Redirect(IndexUrl)
    {
      var nameId := GetOr(data, NameIdKey, Null);
      var sessionIndex := GetOr(data, SessionIndexKey, Null);
      var nameIdFormat := GetOr(data, NameIdFormatKey, Null);
      var nameQualifier := GetOr(data, NameQualifierKey, Null);
      var spNameQualifier := GetOr(data, SpNameQualifierKey, Null);
      data := map[];
      request := LogoutRequest(nameId, sessionIndex, nameQualifier, nameIdFormat, spNameQualifier);
    }

    /** `saml_sls`: the library clears the session through its callback
        before its errors are looked at. */
    method SingleLogout(v: SloVerdict) returns (r: Reply)
      modifies this
      ensures data == if v.clearedSession then map[] else old(data)
      ensures v.errors != [] ==> r == ErrorPage(400, v.errors)
      ensures v.errors == [] ==> r == Redirect(if v.url.Some? && v.url.value != "" then v.url.value else IndexUrl)
    {
      if v.clearedSession {
        data := map[];
      }
      if v.errors != [] {
        return ErrorPage(400, v.errors);
      }
      if v.url.Some? && v.url.value != "" {
        r := Redirect(v.url.value);
      } else {
        r := Redirect(IndexUrl);
      }
    }
  }

  /** After a successful login the index shows the asserted user, and the
      logout request carries every logout value the assertion supplied. */
  lemma LoginShowsUser(s: Session, v: AcsVerdict)
    ensures IndexPage(StoreAssertion(s, v)) == Dashboard(v.nameId, v.attributes)
    ensures AttributesView(StoreAssertion(s, v)) == AttributesPage(v.nameId, v.attributes)
    ensures GetOr(StoreAssertion(s, v), NameIdKey, Null) == v.nameId
    ensures GetOr(StoreAssertion(s, v), SessionIndexKey, Null) == v.sessionIndex
    ensures GetOr(StoreAssertion(s, v), NameQualifierKey, Null) == v.nameQualifier
    ensures GetOr(StoreAssertion(s, v), NameIdFormatKey, Null) == v.nameIdFormat
    ensures GetOr(StoreAssertion(s, v), SpNameQualifierKey, Null) == v.spNameQualifier
  {
    var r := StoreAssertion(s, v);
    assert r[UserdataKey] == v.attributes;
    assert r[NameIdKey] == v.nameId;
  }
}
