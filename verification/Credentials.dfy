/** Cloud entries, session bindings and their validation
    (internal/openstack/client/credential.go, internal/openstack/purge.go). */
module Credentials {
  import opened Results
  import opened GoStrings
  import Authority

  /** One entry of a parsed clouds.yaml. */
  datatype CloudEntry = CloudEntry(
    hasAuth: bool, authType: string, authURL: string, projectID: string, userID: string,
    region: string, endpointType: string, credentialID: string, credentialSecret: string)

  /** A parsed clouds.yaml; None stands for text that does not parse. */
  type Clouds = Option<map<string, CloudEntry>>

  datatype Config = Config(
    authority: string, projectID: string, userID: string, region: string,
    endpoint: string, cloudName: string, credentialID: string)

  datatype Binding = Binding(
    authority: string, projectID: string, userID: string, region: string,
    endpoint: string, cloudName: string, credentialID: string)

  /** The user and project a token carries. */
  datatype Token = Token(projectID: string, userID: string)

  const DEFAULT_CLOUD := "openstack"
  const APPLICATION_CREDENTIAL := "v3applicationcredential"

  function EndpointType(text: string): string {
    if text == "internal" || text == "internalURL" then "internal"
    else if text == "admin" || text == "adminURL" then "admin"
    else "public"
  }

  /** Validates the selected cloud and maps its fields, without authenticating. */
  function DescribeCredential(clouds: Clouds, selected: string): Result<Config, string> {
    var cloudName := if selected == "" then DEFAULT_CLOUD else selected;
    if clouds.None? then Err("parsing clouds.yaml: invalid configuration")
    else if cloudName !in clouds.value then Err("could not load cloud")
    else
      var cloud := clouds.value[cloudName];
      if !cloud.hasAuth then Err("cloud has no auth configuration")
      else if cloud.authType != APPLICATION_CREDENTIAL then Err("unsupported authentication type")
      else if TrimSpace(cloud.credentialID) == "" then Err("application credential ID is empty")
      else if TrimSpace(cloud.credentialSecret) == "" then Err("application credential secret is empty")
      else
        match Authority.NormalizeAuthority(cloud.authURL)
        case Err(e) => Err(e)
        case Ok(authority) =>
          Ok(Config(authority, cloud.projectID, cloud.userID, cloud.region,
                    EndpointType(cloud.endpointType), cloudName, cloud.credentialID))
  }

  /** The binding of a session: the configuration, with user and project from its token. */
  function SessionBinding(config: Config, token: Token): Binding {
    Binding(config.authority, token.projectID, token.userID, config.region,
            config.endpoint, config.cloudName, config.credentialID)
  }

  predicate Trimmed(s: string) {
    TrimSpace(s) == s
  }

  predicate TrimmedField(s: string) {
    s != "" && Trimmed(s)
  }

  function ValidateBinding(b: Binding): Result<(), string> {
    match Authority.NormalizeAuthority(b.authority)
    case Err(e) => Err(e)
    case Ok(authority) =>
      if authority != b.authority then Err("credential binding authority is not canonical")
      else if b.endpoint != "public" && b.endpoint != "internal" && b.endpoint != "admin"
      then Err("credential binding interface is unsupported")
      else if !TrimmedField(b.projectID) || !TrimmedField(b.userID)
           || !TrimmedField(b.cloudName) || !TrimmedField(b.credentialID)
      then Err("credential binding field is empty or has surrounding whitespace")
      else if !Trimmed(b.region) then Err("credential binding region has surrounding whitespace")
      else Ok(())
  }

  /** A described credential carries a canonical authority and a supported interface. */
  lemma DescribedAuthorityIsCanonical(clouds: Clouds, selected: string)
    requires DescribeCredential(clouds, selected).Ok?
    ensures var config := DescribeCredential(clouds, selected).value;
      && Authority.NormalizeAuthority(config.authority) == Ok(config.authority)
      && config.endpoint in {"public", "internal", "admin"}
  {
    hide Authority.NormalizeAuthority, TrimSpace;
    var cloudName := if selected == "" then DEFAULT_CLOUD else selected;
    Authority.NormalizeIsIdempotent(clouds.value[cloudName].authURL);
  }

  /** A session's binding is accepted exactly when its names are trimmed: the authority is already
      canonical and the interface always supported. */
  lemma SessionBindingIsValidIff(clouds: Clouds, selected: string, token: Token)
    requires DescribeCredential(clouds, selected).Ok?
    ensures var b := SessionBinding(DescribeCredential(clouds, selected).value, token);
      ValidateBinding(b).Ok?
      <==> TrimmedField(b.projectID) && TrimmedField(b.userID) && TrimmedField(b.cloudName)
           && TrimmedField(b.credentialID) && Trimmed(b.region)
  {
    hide Authority.NormalizeAuthority, DescribeCredential, Trimmed;
    DescribedAuthorityIsCanonical(clouds, selected);
  }
}
