/**
 * `spotify.spring.SpringPortConfig`: the web server port, worked out once
 * from the `server.port` property or the settings, then cached.
 */
module SpringPort {
  import opened Lang

  /** What `SpotifyDependenciesSettings.port()` returns unless overridden. */
  const DEFAULT_PORT: int := 8080

  /**
   * The port on first use: the parsed `server.port` property when it is
   * set, the settings' port otherwise.
   */
  function FirstPort(serverPort: Option<string>, settingsPort: int): (r: Result<int, Exception>)
    ensures serverPort.None? ==> r == Success(settingsPort)
    ensures serverPort.Some? ==> r == ParseInt(serverPort.value)
  {
    if serverPort.Some? then ParseInt(serverPort.value) else Success(settingsPort)
  }

  /** Without `server.port` and with the settings left at their default, the port is 8080. */
  lemma DefaultSettingsPort()
    ensures FirstPort(None, DEFAULT_PORT) == Success(8080)
  {
  }

  /** A port written into `server.port` is the port the server gets. */
  lemma ServerPortIsUsed(p: int, settingsPort: int)
    requires IsInt(p)
    ensures FirstPort(Some(IntToString(p)), settingsPort) == Success(p)
  {
    ParseIntToString(p);
  }

  /** A `server.port` that is not a number stops the port lookup with `NumberFormatException`. */
  lemma MalformedServerPort(s: string, settingsPort: int)
    requires |s| == 0 || exists i :: 0 <= i < |s| && !IsDigit(s[i]) && s[i] != '-' && s[i] != '+'
    ensures FirstPort(Some(s), settingsPort) == Failure(NumberFormat(s))
  {
    if |s| > 0 {
      var i :| 0 <= i < |s| && !IsDigit(s[i]) && s[i] != '-' && s[i] != '+';
      var digits := if s[0] == '-' || s[0] == '+' then s[1..] else s;
      if s[0] == '-' || s[0] == '+' {
        assert i > 0 && digits[i - 1] == s[i] && !IsDigit(digits[i - 1]);
      } else {
        assert !IsDigit(digits[i]);
      }
    }
  }

  /** `ConfigurableServletWebServerFactory`: only its port. */
  class WebServerFactory {
    var port: Option<int>

    constructor ()
      ensures port.None?
    {
      port := None;
    }
  }

  class SpringPortConfig {
    /** The cached port, null until the first successful `getPort`. */
    var port: Option<int>
    /** `${server.port:#{null}}`. */
    const serverPortFromApplicationProperties: Option<string>
    /** `spotifyDependenciesSettings.port()`. */
    const settingsPort: int

    constructor (serverPortFromApplicationProperties: Option<string>, settingsPort: int)
      ensures port.None?
      ensures this.serverPortFromApplicationProperties == serverPortFromApplicationProperties
      ensures this.settingsPort == settingsPort
    {
      port := None;
      this.serverPortFromApplicationProperties := serverPortFromApplicationProperties;
      this.settingsPort := settingsPort;
    }

    /**
     * `getPort()`: a cached port is returned as it is; otherwise the first
     * port is worked out and cached, unless parsing it throws.
     */
    method GetPort() returns (r: Result<int, Exception>)
      modifies this
      ensures old(port).Some? ==> r == Success(old(port).value) && port == old(port)
      ensures old(port).None? ==> r == FirstPort(serverPortFromApplicationProperties, settingsPort)
      ensures port == if r.Success? then Some(r.value) else None
    {
      if port.None? {
        var computed: Result<int, Exception>;
        if serverPortFromApplicationProperties.Some? {
          computed := ParseInt(serverPortFromApplicationProperties.value);
        } else {
          computed := Success(settingsPort);
        }
        if computed.Failure? {
          return Failure(computed.error);
        }
        port := Some(computed.value);
      }
      return Success(port.value);
    }

    /** `customize(factory)`: the factory gets exactly `getPort()`. */
    method Customize(factory: WebServerFactory) returns (thrown: Option<Exception>)
      modifies this, factory
      ensures var r := if old(port).Some? then Success(old(port).value)
                       else FirstPort(serverPortFromApplicationProperties, settingsPort);
        && (r.Success? ==> thrown.None? && factory.port == Some(r.value) && port == Some(r.value))
        && (r.Failure? ==> thrown == Some(r.error) && factory.port == old(factory.port) && port.None?)
    {
      var p := GetPort();
      if p.Failure? {
        return Some(p.error);
      }
      factory.port := Some(p.value);
      return None;
    }
  }

  /** Two calls in a row give the same port, the second from the cache. */
  method GetPortTwice(config: SpringPortConfig) returns (first: Result<int, Exception>, second: Result<int, Exception>)
    modifies config
    ensures first.Success? ==> second == first
  {
    first := config.GetPort();
    second := config.GetPort();
  }
}
