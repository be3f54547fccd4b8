/** The status of a custom resource: the copy a reconcile works on, and the one that survives a crash. */
module Resources {
  import opened Base

  /** The fields that an adoption diff can name. */
  datatype Field =
    | AccessCodeValidity | AccessTokenValidity | AuthenticationFlow | AuthorizationFlow | BasicAuthEnabled
    | BasicAuthPasswordAttribute | BasicAuthUserAttribute | Certificate | ClientId | ClientSecret | ClientTypeField
    | CookieDomain | EncryptionKey | ExternalHost | GrantTypes | GroupField | IncludeClaimsInIdToken | InterceptHeaderAuth
    | InternalHost | InternalHostSslValidation | InvalidationFlow | IssuerModeField | LogoutMethodField | LogoutUri
    | MetaDescription | MetaHide | MetaIcon | MetaLaunchUrl | MetaPublisher | ModeField | NameField | OpenInNewTab
    | PolicyEngineModeField | PropertyMappings | ProviderField | RedirectUris | RefreshTokenThreshold
    | RefreshTokenValidity | SigningKey | SkipPathRegex | SlugField | SubModeField

  datatype Status = Status(
    applicationSlug: Option<string>,
    applicationPk: Option<Key>,
    providerPk: Option<Key>,
    outpostUuid: Option<Key>,
    bindingUuids: seq<Key>,
    unmanagedBindings: seq<Key>,
    adoptionDiff: seq<Field>)

  /** A status without what reconcileBindings writes. */
  function BesideBindings(status: Status): Status {
    status.(bindingUuids := [], unmanagedBindings := [])
  }

  class Resource {
    var status: Status
    var base: Status  // the status as last written to Kubernetes

    constructor ()
      ensures status == base == Status(None, None, None, None, [], [], [])
    {
      status := Status(None, None, None, None, [], [], []);
      base := Status(None, None, None, None, [], [], []);
    }

    /** Writes the status when it differs from the last written one. */
    method PatchStatus() returns (res: Result<()>)
      modifies this`base
      ensures res.Ok? ==> base == status
      ensures res.Err? ==> base == old(base) && res.error == Unavailable
      ensures old(base) == status ==> res.Ok?
    {
      if base == status { return Ok(()); }
      if * { return Err(Unavailable); }
      base := status;
      return Ok(());
    }

    /** The next reconcile starts from what was written. */
    method Reload()
      modifies this`status
      ensures status == base
    {
      status := base;
    }
  }

  /** The credentials Secret of a resource, when it exists. */
  class CredentialsSecret {
    var data: Option<map<string, string>>
  }

  /** values with value appended unless it is already present. */
  function Union(values: seq<Key>, value: Key): (r: seq<Key>)
    ensures Elements(r) == Elements(values) + {value} && values <= r && |r| <= |values| + 1
  {
    if value in values then values else values + [value]
  }
}
