/**
 * `spotify.config.SpotifyApiConfig`: where the credentials come from (the
 * properties file or the environment), the `OAuth2` bean built from them,
 * and storing refreshed tokens.
 *
 * The file system and the environment are an `Environment` value; a
 * properties file is its parsed key-value map. The two `@Bean` methods
 * return container-managed singletons, so `updateTokens` changes the one
 * `OAuth2` object and the one `Properties` map the rest of the program
 * holds.
 */
module ApiConfig {
  import opened Lang

  const CLIENT_ID: string := "client_id"
  const CLIENT_SECRET: string := "client_secret"
  const ACCESS_TOKEN: string := "access_token"
  const REFRESH_TOKEN: string := "refresh_token"
  const PROPERTIES_FILE: string := "./spotifybot.properties"

  type Properties = map<string, string>

  /**
   * What `spotifyApiProperties` can observe: whether the file exists, its
   * parsed contents or `None` when reading it throws, and two environment
   * variables.
   */
  datatype Environment = Environment(
    fileExists: bool,
    fileContents: Option<Properties>,
    clientIdEnv: Option<string>,
    clientSecretEnv: Option<string>)

  /** How `spotifyApiProperties` ends: with properties, with `System.exit`, or with an exception. */
  datatype Loaded = Loaded(properties: Properties) | Exited(status: int) | Thrown(error: Exception)

  /** The four fields of an `OAuth2` as values. */
  datatype Credentials = Credentials(
    clientId: Option<string>,
    clientSecret: Option<string>,
    accessToken: Option<string>,
    refreshToken: Option<string>)

  function MissingSourceMessage(propertiesFile: string): string
  {
    "Failed to read " + propertiesFile + " and didn't find environment variables '" + CLIENT_ID
      + "' and '" + CLIENT_SECRET + "' as backup. Terminating!"
  }

  /**
   * `spotifyApiProperties()`: an existing file is loaded, and a read
   * failure terminates with status 1; without the file, both environment
   * variables give properties of just the client id and secret; otherwise
   * `IllegalStateException`.
   */
  function SpotifyApiProperties(env: Environment, propertiesFile: string): (r: Loaded)
    ensures env.fileExists ==> r == if env.fileContents.Some? then Loaded(env.fileContents.value) else Exited(1)
    ensures !env.fileExists && env.clientIdEnv.Some? && env.clientSecretEnv.Some? ==>
      r == Loaded(map[CLIENT_ID := env.clientIdEnv.value, CLIENT_SECRET := env.clientSecretEnv.value])
    ensures !env.fileExists && (env.clientIdEnv.None? || env.clientSecretEnv.None?) ==>
      r == Thrown(IllegalState(MissingSourceMessage(propertiesFile)))
  {
    if env.fileExists then
      if env.fileContents.Some? then Loaded(env.fileContents.value) else Exited(1)
    else if env.clientIdEnv.Some? && env.clientSecretEnv.Some? then
      Loaded(map[][CLIENT_ID := env.clientIdEnv.value][CLIENT_SECRET := env.clientSecretEnv.value])
    else Thrown(IllegalState(MissingSourceMessage(propertiesFile)))
  }

  /** `properties.getProperty(key)`: null for a missing key. */
  function GetProperty(properties: Properties, key: string): Option<string>
  {
    if key in properties then Some(properties[key]) else None
  }

  /** `getNotBlankProperty(properties, key)`. */
  function GetNotBlankProperty(properties: Properties, propertyKey: string): (r: Result<string, Exception>)
    ensures r.Success? <==> propertyKey in properties && !IsBlank(properties[propertyKey])
    ensures r.Success? ==> r.value == properties[propertyKey]
    ensures r.Failure? ==> r.error == IllegalState("Missing required field in spotifybot.properties: " + propertyKey)
  {
    var property := GetProperty(properties, propertyKey);
    if property.Some? && !IsBlank(property.value) then Success(property.value)
    else Failure(IllegalState("Missing required field in spotifybot.properties: " + propertyKey))
  }

  /**
   * The fields `spotifyBotConfig()` sets: the client id and secret must not
   * be blank, the id being checked first; the tokens are copied as they
   * are, null when missing.
   */
  function BotConfigFields(properties: Properties): (r: Result<Credentials, Exception>)
    ensures r.Success? <==> GetNotBlankProperty(properties, CLIENT_ID).Success? && GetNotBlankProperty(properties, CLIENT_SECRET).Success?
    ensures r.Failure? ==> r.error == (if GetNotBlankProperty(properties, CLIENT_ID).Failure? then GetNotBlankProperty(properties, CLIENT_ID).error
                                      else GetNotBlankProperty(properties, CLIENT_SECRET).error)
    ensures r.Success? ==> r.value == Credentials(Some(properties[CLIENT_ID]), Some(properties[CLIENT_SECRET]),
                                                  GetProperty(properties, ACCESS_TOKEN), GetProperty(properties, REFRESH_TOKEN))
  {
    var clientId := GetNotBlankProperty(properties, CLIENT_ID);
    if clientId.Failure? then Failure(clientId.error)
    else
      var clientSecret := GetNotBlankProperty(properties, CLIENT_SECRET);
      if clientSecret.Failure? then Failure(clientSecret.error)
      else Success(Credentials(Some(clientId.value), Some(clientSecret.value),
                               GetProperty(properties, ACCESS_TOKEN), GetProperty(properties, REFRESH_TOKEN)))
  }

  /**
   * Credentials from the environment have no tokens yet, and the bean is
   * built exactly when neither variable is blank.
   */
  lemma EnvironmentGivesNoTokens(env: Environment, propertiesFile: string)
    requires !env.fileExists && env.clientIdEnv.Some? && env.clientSecretEnv.Some?
    ensures var props := SpotifyApiProperties(env, propertiesFile).properties;
      && props.Keys == {CLIENT_ID, CLIENT_SECRET}
      && (BotConfigFields(props).Success? <==> !IsBlank(env.clientIdEnv.value) && !IsBlank(env.clientSecretEnv.value))
      && (BotConfigFields(props).Success? ==> BotConfigFields(props).value.accessToken.None? && BotConfigFields(props).value.refreshToken.None?)
  {
  }

  /** `SpotifyApiConfig.OAuth2`. */
  class OAuth2 {
    var clientId: Option<string>
    var clientSecret: Option<string>
    var accessToken: Option<string>
    var refreshToken: Option<string>

    constructor ()
      ensures clientId.None? && clientSecret.None? && accessToken.None? && refreshToken.None?
    {
      clientId, clientSecret, accessToken, refreshToken := None, None, None, None;
    }

    function Fields(): Credentials
      reads this
    {
      Credentials(clientId, clientSecret, accessToken, refreshToken)
    }

    method SetClientId(clientId: Option<string>)
      modifies this
      ensures Fields() == old(Fields()).(clientId := clientId)
    {
      this.clientId := clientId;
    }

    method SetClientSecret(clientSecret: Option<string>)
      modifies this
      ensures Fields() == old(Fields()).(clientSecret := clientSecret)
    {
      this.clientSecret := clientSecret;
    }

    method SetAccessToken(accessToken: Option<string>)
      modifies this
      ensures Fields() == old(Fields()).(accessToken := accessToken)
    {
      this.accessToken := accessToken;
    }

    method SetRefreshToken(refreshToken: Option<string>)
      modifies this
      ensures Fields() == old(Fields()).(refreshToken := refreshToken)
    {
      this.refreshToken := refreshToken;
    }
  }

  /** `spotifyBotConfig()` on the loaded properties: a new `OAuth2` filled field by field. */
  method SpotifyBotConfig(properties: Properties) returns (r: Result<OAuth2, Exception>)
    ensures BotConfigFields(properties).Failure? ==> r == Failure(BotConfigFields(properties).error)
    ensures BotConfigFields(properties).Success? ==> r.Success? && fresh(r.value) && r.value.Fields() == BotConfigFields(properties).value
  {
    var config := new OAuth2();
    var clientId := GetNotBlankProperty(properties, CLIENT_ID);
    if clientId.Failure? {
      return Failure(clientId.error);
    }
    config.SetClientId(Some(clientId.value));
    var clientSecret := GetNotBlankProperty(properties, CLIENT_SECRET);
    if clientSecret.Failure? {
      return Failure(clientSecret.error);
    }
    config.SetClientSecret(Some(clientSecret.value));
    config.SetAccessToken(GetProperty(properties, ACCESS_TOKEN));
    config.SetRefreshToken(GetProperty(properties, REFRESH_TOKEN));
    return Success(config);
  }

  /** The configuration once its two beans exist. */
  class SpotifyApiConfig {
    /** `new File(configFilesBase, PROPERTIES_FILE)`, as a path. */
    const propertiesFile: string
    /** The `spotifyApiProperties` bean. */
    var properties: Properties
    /** The `spotifyBotConfig` bean. */
    const botConfig: OAuth2
    /** Whether a `FileOutputStream` on the properties file can be opened. */
    const fileWritable: bool
    /** What was last stored to the properties file, if anything. */
    var stored: Option<Properties>

    constructor (propertiesFile: string, properties: Properties, botConfig: OAuth2, fileWritable: bool)
      ensures this.propertiesFile == propertiesFile && this.properties == properties
      ensures this.botConfig == botConfig && this.fileWritable == fileWritable && stored.None?
    {
      this.propertiesFile := propertiesFile;
      this.properties := properties;
      this.botConfig := botConfig;
      this.fileWritable := fileWritable;
      stored := None;
    }

    /**
     * `updateTokens(accessToken, refreshToken)`: both tokens go into the
     * `OAuth2` bean, then into the properties, which are stored. A null
     * token makes `setProperty` throw `NullPointerException` when its turn
     * comes; an unwritable file makes the store throw.
     */
    method UpdateTokens(accessToken: Option<string>, refreshToken: Option<string>) returns (thrown: Option<Exception>)
      modifies this, botConfig
      ensures botConfig.Fields() == old(botConfig.Fields()).(accessToken := accessToken, refreshToken := refreshToken)
      ensures accessToken.None? ==> thrown == Some(NullPointer) && properties == old(properties) && stored == old(stored)
      ensures accessToken.Some? && refreshToken.None? ==>
        thrown == Some(NullPointer) && properties == old(properties)[ACCESS_TOKEN := accessToken.value] && stored == old(stored)
      ensures accessToken.Some? && refreshToken.Some? ==>
        && properties == old(properties)[ACCESS_TOKEN := accessToken.value][REFRESH_TOKEN := refreshToken.value]
        && (fileWritable ==> thrown.None? && stored == Some(properties))
        && (!fileWritable ==> thrown == Some(IOError(propertiesFile)) && stored == old(stored))
    {
      botConfig.SetAccessToken(accessToken);
      botConfig.SetRefreshToken(refreshToken);
      if accessToken.None? {
        return Some(NullPointer);
      }
      properties := properties[ACCESS_TOKEN := accessToken.value];
      if refreshToken.None? {
        return Some(NullPointer);
      }
      properties := properties[REFRESH_TOKEN := refreshToken.value];
      if !fileWritable {
        return Some(IOError(propertiesFile));
      }
      stored := Some(properties);
      return None;
    }
  }

  /**
   * Stored tokens survive a restart: loading the stored file gives the
   * same client id and secret as before and the new tokens.
   */
  lemma StoredTokensReadBack(properties: Properties, accessToken: string, refreshToken: string, env: Environment, propertiesFile: string)
    requires env.fileExists && env.fileContents == Some(properties[ACCESS_TOKEN := accessToken][REFRESH_TOKEN := refreshToken])
    requires BotConfigFields(properties).Success?
    ensures SpotifyApiProperties(env, propertiesFile).Loaded?
    ensures BotConfigFields(SpotifyApiProperties(env, propertiesFile).properties) ==
      Success(BotConfigFields(properties).value.(accessToken := Some(accessToken), refreshToken := Some(refreshToken)))
  {
    var stored := env.fileContents.value;
    assert stored[CLIENT_ID] == properties[CLIENT_ID] && stored[CLIENT_SECRET] == properties[CLIENT_SECRET];
  }
}
