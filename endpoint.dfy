/**
 * The remote URL of the deployment target (`AzuratorGitDeployMojo.getRemoteEndpoint`):
 * `https://<name>.scm.azurewebsites.net:443/<name>.git`.
 */
module RemoteEndpoint {

  import opened Optional

  const Scheme: string := "https://"
  const HostAndPort: string := ".scm.azurewebsites.net:443/"
  const Extension: string := ".git"

  /** The length of the URL without the two copies of the application name. */
  const FixedLength: nat := |Scheme| + |HostAndPort| + |Extension|

  /** The URL pushed to, with the application name inserted twice. */
  function Endpoint(applicationName: string): (url: string)
    ensures |url| == FixedLength + 2 * |applicationName|
    ensures url[..|Scheme|] == Scheme
    ensures url[|url| - |Extension|..] == Extension
  {
    Scheme + applicationName + HostAndPort + applicationName + Extension
  }

  /** Recovers the application name from a URL, when the URL has the endpoint's form. */
  function ApplicationNameOf(url: string): (name: Option<string>)
    ensures name.Some? ==> Endpoint(name.value) == url
  {
    if |url| < FixedLength || (|url| - FixedLength) % 2 != 0 then None
    else
      var candidate := url[|Scheme|..|Scheme| + (|url| - FixedLength) / 2];
      if Endpoint(candidate) == url then Some(candidate) else None
  }

  /** Stripping the fixed parts of an endpoint gives back its application name. */
  lemma EndpointRoundTrip(applicationName: string)
    ensures ApplicationNameOf(Endpoint(applicationName)) == Some(applicationName)
  {
    var url := Endpoint(applicationName);
    assert url[|Scheme|..|Scheme| + |applicationName|] == applicationName;
  }

  /** Distinct application names give distinct URLs. */
  lemma EndpointInjective(a: string, b: string)
    ensures Endpoint(a) == Endpoint(b) ==> a == b
  {
    EndpointRoundTrip(a);
    EndpointRoundTrip(b);
  }

  /** The URL for the application name "myapp". */
  lemma EndpointExample()
    ensures Endpoint("myapp") == "https://myapp.scm.azurewebsites.net:443/myapp.git"
  {
    assert Scheme + "myapp" == "https://myapp";
    assert "https://myapp" + HostAndPort == "https://myapp.scm.azurewebsites.net:443/";
    assert "https://myapp.scm.azurewebsites.net:443/" + "myapp" == "https://myapp.scm.azurewebsites.net:443/myapp";
    assert "https://myapp.scm.azurewebsites.net:443/myapp" + Extension == "https://myapp.scm.azurewebsites.net:443/myapp.git";
  }
}
