/** The options page: the settings form, how saving checks and stores it (with the tracker
    address normalised to start with `http` and lose one trailing slash), the connection test
    and the values a form shows for settings never stored. */
module Options {
  import opened Wrappers
  import opened Http
  import opened Text
  import Allocation

  /** The settings as stored, or as the form holds them. An unset text setting is "", an
      unset or unparsable number is `None`. */
  datatype Settings = Settings(
    jiraUrl: string,
    username: string,
    apiToken: string,
    projectKey: string,
    notificationTime: string,
    defaultHours: Option<real>,
    weekendsEnabled: bool,
    autoDistribution: string,
    primaryStatuses: string,
    otherStatuses: string,
    customJql: string,
    worklogComment: string)

  /** Nothing stored at all, as after the settings are cleared. */
  const NothingStored: Settings := Settings("", "", "", "", "", None, false, "", "", "", "", "")

  const DefaultNotificationTime: string := "17:00"
  const DefaultWorklogComment: string := "Daily work log"

  /** How saving ends. */
  datatype SaveOutcome = Saved(settings: Settings) | MissingRequired | StorageFailed

  /** `https://` put in front of an address that does not start with `http`. */
  function WithHttps(url: string): string {
    if StartsWith(url, "http") then url else "https://" + url
  }

  /** `replace(/\/$/, '')`: one trailing slash removed. */
  function StripTrailingSlash(url: string): string {
    if |url| > 0 && url[|url| - 1] == '/' then url[..|url| - 1] else url
  }

  /** The address the options page stores and tests against. */
  function CleanUrl(url: string): string {
    StripTrailingSlash(WithHttps(url))
  }

  /** An address starting with `http` — `httpfoo` included — is left unprefixed; any other
      gets `https://`. */
  lemma HttpsPrefix(url: string)
    ensures StartsWith(url, "http") ==> WithHttps(url) == url
    ensures !StartsWith(url, "http") ==> WithHttps(url) == "https://" + url
    ensures WithHttps("httpfoo") == "httpfoo"
  {
    assert "httpfoo"[..4] == "http";
  }

  /** Exactly one trailing slash goes and nothing else changes: an address without one is
      kept, and `x//` becomes `x/`. */
  lemma StripRemovesOneSlash(url: string)
    ensures StripTrailingSlash(url + "/") == url
    ensures (|url| == 0 || url[|url| - 1] != '/') ==> StripTrailingSlash(url) == url
    ensures StripTrailingSlash("x//") == "x/"
  {
    assert (url + "/")[..|url|] == url;
    assert "x//"[..2] == "x/";
  }

  /** The stored address always starts with `http`. */
  lemma CleanUrlStartsWithHttp(url: string)
    ensures StartsWith(CleanUrl(url), "http")
  {
    var w := WithHttps(url);
    if !StartsWith(url, "http") {
      assert w[..4] == "http";
      assert |w| >= 8;
    }
    assert w[..4] == "http";
    if |w| > 0 && w[|w| - 1] == '/' {
      assert |w| > 4;
      assert CleanUrl(url)[..4] == w[..4];
    }
  }

  /** Cleaning a cleaned address again changes it exactly when it still ends in a slash (as
      `x//` does). */
  lemma CleanUrlIdempotentIffNoTrailingSlash(url: string)
    ensures var c := CleanUrl(url);
      CleanUrl(c) == c <==> (|c| == 0 || c[|c| - 1] != '/')
  {
    var c := CleanUrl(url);
    CleanUrlStartsWithHttp(url);
    assert WithHttps(c) == c;
  }

  /** Every field as `saveSettings` reads it from the form: text trimmed except the time and
      the distribution mode; the default hours as `parseFloat` reads them. */
  function Collected(form: Settings): Settings {
    form.(jiraUrl := Trim(form.jiraUrl), username := Trim(form.username),
          apiToken := Trim(form.apiToken), projectKey := Trim(form.projectKey),
          primaryStatuses := Trim(form.primaryStatuses), otherStatuses := Trim(form.otherStatuses),
          customJql := Trim(form.customJql), worklogComment := Trim(form.worklogComment))
  }

  /** The four fields without which nothing is saved. */
  predicate HasRequired(s: Settings) {
    s.jiraUrl != "" && s.username != "" && s.apiToken != "" && s.projectKey != ""
  }

  /** `saveSettings`: the form's fields collected, refused when a required one is empty, the
      address rewritten in place, then stored; `storageFails` says whether the storage call
      reports an error. */
  method SaveSettings(form: Settings, storageFails: bool) returns (outcome: SaveOutcome)
    ensures outcome == MissingRequired <==> !HasRequired(Collected(form))
    ensures outcome == StorageFailed <==> HasRequired(Collected(form)) && storageFails
    ensures outcome.Saved? ==>
      outcome.settings == Collected(form).(jiraUrl := CleanUrl(Trim(form.jiraUrl)))
  {
    var settings := Collected(form);
    if !HasRequired(settings) {
      return MissingRequired;
    }
    if !StartsWith(settings.jiraUrl, "http") {
      settings := settings.(jiraUrl := "https://" + settings.jiraUrl);
    }
    if |settings.jiraUrl| > 0 && settings.jiraUrl[|settings.jiraUrl| - 1] == '/' {
      settings := settings.(jiraUrl := settings.jiraUrl[..|settings.jiraUrl| - 1]);
    }
    if storageFails {
      return StorageFailed;
    }
    return Saved(settings);
  }

  /** A saved address starts with `http`, never ends in a slash unless the trimmed input ended
      in two, and saving it again stores it unchanged in that case. */
  lemma SavedUrlIsClean(form: Settings, storageFails: bool, s: Settings)
    requires HasRequired(Collected(form)) && !storageFails
    requires s == Collected(form).(jiraUrl := CleanUrl(Trim(form.jiraUrl)))
    ensures StartsWith(s.jiraUrl, "http")
    ensures (|s.jiraUrl| == 0 || s.jiraUrl[|s.jiraUrl| - 1] != '/') ==> CleanUrl(s.jiraUrl) == s.jiraUrl
  {
    CleanUrlStartsWithHttp(Trim(form.jiraUrl));
    CleanUrlIdempotentIffNoTrailingSlash(Trim(form.jiraUrl));
  }

  /** What the connection test reads of the tracker's answer. */
  datatype UserInfo = UserInfo(displayName: string, emailAddress: string)

  /** Why the connection test failed. */
  datatype ConnectionError =
    | FieldsMissing
    | NetworkError
    | InvalidCredentials
    | UrlNotFound
    | FailedWithStatus(status: int)

  /** The request the test makes, if any, and what it shows. */
  datatype ConnectionTest = ConnectionTest(endpoint: Option<string>, result: Result<UserInfo, ConnectionError>)

  /** The message for a reply that is not ok. */
  function StatusError(status: int): (e: ConnectionError)
    ensures e.FailedWithStatus? <==> status != 401 && status != 404
    ensures e.FailedWithStatus? ==> e.status == status
    ensures e == InvalidCredentials <==> status == 401
    ensures e == UrlNotFound <==> status == 404
  {
    if status == 401 then InvalidCredentials
    else if status == 404 then UrlNotFound
    else FailedWithStatus(status)
  }

  /** `testConnection` with the tracker's reply to the one request it sends. */
  function TestConnection(form: Settings, reply: Reply<UserInfo>): (t: ConnectionTest)
    ensures t.endpoint.None? <==> t.result == Err(FieldsMissing)
    ensures t.endpoint.Some? ==> t.endpoint.value == CleanUrl(Trim(form.jiraUrl)) + "/rest/api/2/myself"
    ensures t.result.Ok? <==> t.endpoint.Some? && Succeeded(reply)
    ensures t.result.Ok? ==> t.result.value == reply.body
    ensures t.endpoint.Some? && reply.NoResponse? ==> t.result == Err(NetworkError)
    ensures t.endpoint.Some? && reply.Response? && !IsOk(reply.status) ==>
      t.result == Err(StatusError(reply.status))
  {
    var jiraUrl, username, apiToken := Trim(form.jiraUrl), Trim(form.username), Trim(form.apiToken);
    if jiraUrl == "" || username == "" || apiToken == "" then
      ConnectionTest(None, Err(FieldsMissing))
    else
      var formattedUrl := if StartsWith(jiraUrl, "http") then jiraUrl else "https://" + jiraUrl;
      var cleanUrl := StripTrailingSlash(formattedUrl);
      var endpoint := Some(cleanUrl + "/rest/api/2/myself");
      match reply
      case NoResponse => ConnectionTest(endpoint, Err(NetworkError))
      case Response(status, user) =>
        if IsOk(status) then ConnectionTest(endpoint, Ok(user))
        else ConnectionTest(endpoint, Err(StatusError(status)))
  }

  /** The test needs the address, the user name and the token only: the project key makes no
      difference, and a form whose trimmed three fields are set always sends its request. */
  lemma TestIgnoresProjectKey(form: Settings, key: string, reply: Reply<UserInfo>)
    ensures TestConnection(form.(projectKey := key), reply) == TestConnection(form, reply)
    ensures TestConnection(form, reply).endpoint.Some?
        <==> Trim(form.jiraUrl) != "" && Trim(form.username) != "" && Trim(form.apiToken) != ""
  {
  }

  /** The test and a save of the same form use the same address. */
  lemma TestUsesSavedAddress(form: Settings, reply: Reply<UserInfo>)
    requires HasRequired(Collected(form))
    ensures TestConnection(form, reply).endpoint
         == Some(Collected(form).(jiraUrl := CleanUrl(Trim(form.jiraUrl))).jiraUrl + "/rest/api/2/myself")
  {
  }

  /** `loadSettings`: what the form shows for the stored settings; unset (falsy) values show
      their defaults. */
  function LoadSettings(stored: Settings): (form: Settings)
    ensures form.notificationTime != "" && form.autoDistribution != "" && form.worklogComment != ""
    ensures form.defaultHours.Some? && form.defaultHours.value != 0.0
    ensures stored.notificationTime != "" ==> form.notificationTime == stored.notificationTime
    ensures stored.notificationTime == "" ==> form.notificationTime == DefaultNotificationTime
    ensures stored.autoDistribution != "" ==> form.autoDistribution == stored.autoDistribution
    ensures stored.autoDistribution == "" ==> form.autoDistribution == "none"
    ensures stored.worklogComment != "" ==> form.worklogComment == stored.worklogComment
    ensures stored.worklogComment == "" ==> form.worklogComment == DefaultWorklogComment
    ensures stored.defaultHours.Some? && stored.defaultHours.value != 0.0 ==> form.defaultHours == stored.defaultHours
    ensures stored.defaultHours.None? || stored.defaultHours.value == 0.0 ==> form.defaultHours == Some(6.0)
    ensures form.jiraUrl == stored.jiraUrl && form.username == stored.username
         && form.apiToken == stored.apiToken && form.projectKey == stored.projectKey
         && form.weekendsEnabled == stored.weekendsEnabled && form.primaryStatuses == stored.primaryStatuses
         && form.otherStatuses == stored.otherStatuses && form.customJql == stored.customJql
  {
    stored.(
      notificationTime := if stored.notificationTime == "" then DefaultNotificationTime else stored.notificationTime,
      defaultHours := Some(Allocation.DistributionBudget(stored.defaultHours)),
      autoDistribution := if stored.autoDistribution == "" then "none" else stored.autoDistribution,
      worklogComment := if stored.worklogComment == "" then DefaultWorklogComment else stored.worklogComment)
  }

  /** With nothing stored the form shows 17:00, 6 hours, weekends off, mode 'none' and the
      default comment, and the hours shown are the budget auto-distribution would use. */
  lemma LoadDefaults(stored: Settings)
    ensures var form := LoadSettings(NothingStored);
      && form.notificationTime == "17:00" && form.defaultHours == Some(6.0)
      && !form.weekendsEnabled && form.autoDistribution == "none"
      && form.worklogComment == "Daily work log"
      && form.jiraUrl == "" && form.apiToken == ""
    ensures LoadSettings(stored).defaultHours == Some(Allocation.DistributionBudget(stored.defaultHours))
    ensures LoadSettings(stored).autoDistribution == Allocation.DistributionMode(stored.autoDistribution)
  {
  }
}
